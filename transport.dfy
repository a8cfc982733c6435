/**
 * The BLE transport (a bleak client) as seen by the services: every call a
 * service makes on it is recorded, in order, so that contracts can say which
 * calls were made and which were not. Whether each call succeeds, and what a
 * read returns, is decided outside the model and passed in as a parameter.
 */
module Transport {
  import opened ByteCodec

  /** A characteristic UUID, as the string the services pass to the client. */
  type Uuid = string

  datatype Call =
    | Connect(address: string)
    | Disconnect
    | Read(uuid: Uuid)
    | Write(uuid: Uuid, data: seq<byte>)
    | StartNotify(uuid: Uuid)
    | StopNotify(uuid: Uuid)

  /**
   * The notification channels whose subscribe and unsubscribe calls the
   * status, sensor and gamepad presenters make on the glove service. Those
   * service methods are not part of this model: what the presenters do with
   * their outcome is.
   */
  datatype Channel = OverallStatusChannel | FlexChannel | ForceChannel | JoystickChannel | ButtonsChannel

  datatype ChannelCall = Subscribe(channel: Channel) | Unsubscribe(channel: Channel)
}
