/**
 * The pairing token and the QR image shown to the phone
 * (src-tauri/src/qr_service.rs).
 *
 * The QR matrix and the PNG encoder are library code: they are the two
 * fallible steps of a `QrRenderer`, passed in. The random index draws are a
 * parameter, as in `Security`.
 */
module QrService {
  import opened Wrappers
  import opened Primitives
  import opened Models
  import opened Security

  /** What `QrCode::new` builds: the dark and light modules, row by row. */
  type QrMatrix = seq<seq<bool>>

  datatype QrRenderer = QrRenderer(
    /** `QrCode::new` over the bytes of the JSON text; fails when the data does not fit. */
    qrEncode: Json -> Result<QrMatrix, string>,
    /** rendering at 300 to 500 pixels and `write_to(.., ImageFormat::Png)` */
    pngEncode: QrMatrix -> Result<seq<byte>, string>)

  const DATA_URL_PREFIX: string := "data:image/png;base64,"

  /**
   * `generate_token`: the same construction as `generate_master_token`,
   * written out a second time in the source.
   */
  function GenerateToken(draws: seq<CharsetIndex>): (token: string)
    requires |draws| == TOKEN_LEN
    ensures |token| == TOKEN_LEN
    ensures forall i :: 0 <= i < |token| ==> IsAlphanumeric(token[i])
    ensures token == GenerateMasterToken(draws)
  {
    GenerateMasterToken(draws)
  }

  /** Both rendering steps succeed on the JSON of the connection info. */
  predicate QrRenders(renderer: QrRenderer, connectionInfo: ConnectionInfo) {
    && renderer.qrEncode(EncodeConnectionInfo(connectionInfo)).Ok?
    && renderer.pngEncode(renderer.qrEncode(EncodeConnectionInfo(connectionInfo)).value).Ok?
  }

  /**
   * `generate_qr_code`: the JSON of the connection info goes into the QR
   * code, the PNG of it is base64-encoded behind a data-URL prefix, and the
   * info is returned beside it unchanged. A failure of either step is an
   * error naming that step, and no QR data is produced.
   */
  method GenerateQrCode(lib: Library, renderer: QrRenderer, connectionInfo: ConnectionInfo)
    returns (r: Result<QRCodeData, string>)
    ensures r.Ok? <==> QrRenders(renderer, connectionInfo)
    ensures renderer.qrEncode(EncodeConnectionInfo(connectionInfo)).Err? ==>
      r == Err("Failed to generate QR code: " + renderer.qrEncode(EncodeConnectionInfo(connectionInfo)).error)
    ensures (renderer.qrEncode(EncodeConnectionInfo(connectionInfo)).Ok?
             && renderer.pngEncode(renderer.qrEncode(EncodeConnectionInfo(connectionInfo)).value).Err?) ==>
      r == Err("Failed to encode PNG: " + renderer.pngEncode(renderer.qrEncode(EncodeConnectionInfo(connectionInfo)).value).error)
    ensures r.Ok? ==> r.value.connection_info == connectionInfo
    ensures r.Ok? ==> DATA_URL_PREFIX <= r.value.qr_base64
    ensures r.Ok? ==> r.value.qr_base64 == DATA_URL_PREFIX + lib.base64Encode(
      renderer.pngEncode(renderer.qrEncode(EncodeConnectionInfo(connectionInfo)).value).value)
  {
    var jsonData := EncodeConnectionInfo(connectionInfo);
    var code := renderer.qrEncode(jsonData);
    if code.Err? {
      return Err("Failed to generate QR code: " + code.error);
    }
    var pngBytes: seq<byte> := [];
    var written := renderer.pngEncode(code.value);
    if written.Err? {
      return Err("Failed to encode PNG: " + written.error);
    }
    pngBytes := pngBytes + written.value;
    assert pngBytes == written.value;
    var base64String := lib.base64Encode(pngBytes);
    var qrBase64 := DATA_URL_PREFIX + base64String;
    return Ok(QRCodeData(qrBase64, connectionInfo));
  }
}
