/** The attributes negotiated with one FTL client. */
module ConnectionStates {
  import opened Wrappers

  datatype ConnectionState = ConnectionState(
    hmacPayload: Option<string>,
    protocolVersion: Option<string>,
    vendorName: Option<string>,
    vendorVersion: Option<string>,
    video: bool,
    videoCodec: Option<string>,
    videoHeight: Option<string>,
    videoWidth: Option<string>,
    videoPayloadType: Option<string>,
    videoIngestSsrc: Option<string>,
    audio: bool,
    audioCodec: Option<string>,
    audioPayloadType: Option<string>,
    audioIngestSsrc: Option<string>,
    rtpPort: Option<nat>,
    streamKey: Option<string>)
  {
    function GetPayload(): string {
      match hmacPayload
      case Some(payload) => payload
      case None => ""
    }
  }

  const NEW: ConnectionState :=
    ConnectionState(None, None, None, None, false, None, None, None, None, None, false, None, None, None, None, None)
}
