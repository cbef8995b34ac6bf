/** The values the service passes around (types.go). */
module Types {
  import Strconv

  type byte = b: int | 0 <= b < 256

  /** A non-nil Go `error`; a possibly-nil one is `Option<Error>`. */
  datatype Error = Error(message: string)

  /** One registered device: where its SSH server listens and the
   *  credentials to log in with. */
  datatype DeviceInfo = DeviceInfo(
    deviceId: string,
    sshPort: Strconv.GoInt,
    ip: string,
    sshUser: string,
    sshPwd: string)

  /** The two data-frame types of the WebSocket connection. */
  datatype MessageType = TextMessage | BinaryMessage
}
