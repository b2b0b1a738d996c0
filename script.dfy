/**
 * The conversation script: the immutable, ordered list of messages that the
 * chat replays, and the per-message decision whether a typing phase comes
 * before the message is shown.
 */
module Script {

  datatype Option<T> = None | Some(value: T)

  /** Who a scripted message is attributed to. */
  datatype Sender = SelfSender | OtherSender | SystemSender

  /** A message type other than text and system. */
  type KindTag = t: string | t != "text" && t != "system"

  /** The message's `type`; only the system kind skips the typing phase. */
  datatype Kind = TextKind | SystemKind | OtherKind(tag: KindTag)

  /** One entry of the script: sender, type, payload and an optional avatar. */
  datatype Entry = Entry(sender: Sender, kind: Kind, content: string, avatar: Option<string>)

  /** The `type` string the source compares against. */
  function KindName(k: Kind): string
  {
    match k
    case TextKind => "text"
    case SystemKind => "system"
    case OtherKind(tag) => tag
  }

  /** A message from another participant that is not a system notice is
      preceded by a typing indicator: the test `sender === 'other' &&
      type !== 'system'`, read on the type's string. */
  predicate NeedsTyping(e: Entry): (b: bool)
    ensures b <==> e.sender == OtherSender && KindName(e.kind) != "system"
  {
    e.sender == OtherSender && !e.kind.SystemKind?
  }

  /** The value the typing indicator takes for `e`: its avatar when that is a
      truthy string, and null otherwise (an absent or empty avatar). */
  function TypingAvatarOf(e: Entry): (r: Option<string>)
    ensures r.Some? <==> e.avatar.Some? && e.avatar.value != ""
    ensures r.Some? ==> r == e.avatar
  {
    match e.avatar
    case Some(a) => if a != "" then Some(a) else None
    case None => None
  }
}
