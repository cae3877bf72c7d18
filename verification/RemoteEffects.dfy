/** What can become of a call to a remote system. */
module RemoteEffects {

  /** The effect happens and returns, happens but the reply is lost (the caller sees
      an exception), or is refused without effect. */
  datatype Effect = Applied | LostReply | Refused
}
