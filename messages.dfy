/** The messages the action publisher writes to the log, the user actions
    they record, and how a submission's outcome reaches the caller. */
module Messages {
  import opened Basics

  /** `mlib.link(id)` together with the `value` field the toggles add to it. */
  datatype Link = Link(link: string, value: Option<bool>)

  /** The message objects handed to the log client:
      - `Follow` is `schemas.follow(contact)` after `scope` is assigned and,
        for a pub, `pub` is set (`pub == false` means the field is absent);
      - `Unfollow` is `schemas.unfollow(contact)` as built;
      - `Like` is `{type: 'ferment/like', like}`;
      - `Repost` is `{type: 'ferment/repost', repost}`;
      - `About` is `{type: 'about', about, name}`.
      The field layout of the two schema-built messages belongs to the schema
      library and is not modelled beyond the target. */
  datatype Message =
    | Follow(contact: Identity, scope: Option<Scope>, pub: bool)
    | Unfollow(contact: Identity)
    | Like(like: Link)
    | Repost(repost: Link)
    | About(about: Identity, name: string)

  const LIKE_TYPE := "ferment/like"
  const REPOST_TYPE := "ferment/repost"
  const ABOUT_TYPE := "about"

  /** The `type` field the core writes itself; the schema library's own
      `type` on follow and unfollow messages is not modelled (`None`). */
  function TypeField(m: Message): Option<string> {
    match m
    case Like(_) => Some(LIKE_TYPE)
    case Repost(_) => Some(REPOST_TYPE)
    case About(_, _) => Some(ABOUT_TYPE)
    case _ => None
  }

  /** `mlib.link(id)`: a link to the target that carries no value yet. */
  function LinkTo(id: string): Link {
    Link(id, None)
  }

  // ----- builders, one per action -----

  /** `follow`: the schema's follow message, then `msg.scope = scope`, then
      `msg.pub = true` when the target profile is a pub. */
  function FollowMessage(id: Identity, scope: Option<Scope>, isPub: bool): (m: Message)
    ensures forall self :: Interpret(m, self) == Some(FollowAction(id))
  {
    var msg := Follow(id, None, false);
    var msg := msg.(scope := scope);
    if isPub then msg.(pub := true) else msg
  }

  function UnfollowMessage(id: Identity): (m: Message)
    ensures forall self :: Interpret(m, self) == Some(UnfollowAction(id))
  {
    Unfollow(id)
  }

  function LikeMessage(id: string): (m: Message)
    ensures TypeField(m) == Some(LIKE_TYPE)
    ensures forall self :: Interpret(m, self) == Some(LikeAction(id))
  {
    var likeLink := LinkTo(id).(value := Some(true));
    Like(likeLink)
  }

  function UnlikeMessage(id: string): (m: Message)
    ensures TypeField(m) == Some(LIKE_TYPE)
    ensures forall self :: Interpret(m, self) == Some(UnlikeAction(id))
  {
    var unlikeLink := LinkTo(id).(value := Some(false));
    Like(unlikeLink)
  }

  function RepostMessage(id: string): (m: Message)
    ensures TypeField(m) == Some(REPOST_TYPE)
    ensures forall self :: Interpret(m, self) == Some(RepostAction(id))
  {
    var repostLink := LinkTo(id).(value := Some(true));
    Repost(repostLink)
  }

  function UnrepostMessage(id: string): (m: Message)
    ensures TypeField(m) == Some(REPOST_TYPE)
    ensures forall self :: Interpret(m, self) == Some(UnrepostAction(id))
  {
    var unrepostLink := LinkTo(id).(value := Some(false));
    Repost(unrepostLink)
  }

  /** `setOwnDisplayName`: an about message on the publisher's own id. */
  function AboutMessage(self: Identity, name: string): (m: Message)
    ensures TypeField(m) == Some(ABOUT_TYPE)
    ensures Interpret(m, self) == Some(SetOwnDisplayName(name))
    ensures forall other :: other != self ==> Interpret(m, other).None?
  {
    About(self, name)
  }

  // ----- the user actions the messages record -----

  datatype Action =
    | FollowAction(target: Identity)
    | UnfollowAction(target: Identity)
    | LikeAction(target: string)
    | UnlikeAction(target: string)
    | RepostAction(target: string)
    | UnrepostAction(target: string)
    | SetOwnDisplayName(name: string)

  /** The message the publisher builds for an action by `self`, under the
      configured scope, for a target whose profile is (or is not) a pub. */
  function Build(a: Action, self: Identity, scope: Option<Scope>, targetIsPub: bool): Message {
    match a
    case FollowAction(id) => FollowMessage(id, scope, targetIsPub)
    case UnfollowAction(id) => UnfollowMessage(id)
    case LikeAction(id) => LikeMessage(id)
    case UnlikeAction(id) => UnlikeMessage(id)
    case RepostAction(id) => RepostMessage(id)
    case UnrepostAction(id) => UnrepostMessage(id)
    case SetOwnDisplayName(name) => AboutMessage(self, name)
  }

  /** Reading a message back as the action of `self` it records; a link
      without a value, or an about message on someone else, records none. */
  function Interpret(m: Message, self: Identity): Option<Action> {
    match m
    case Follow(id, _, _) => Some(FollowAction(id))
    case Unfollow(id) => Some(UnfollowAction(id))
    case Like(Link(id, Some(v))) => Some(if v then LikeAction(id) else UnlikeAction(id))
    case Repost(Link(id, Some(v))) => Some(if v then RepostAction(id) else UnrepostAction(id))
    case About(who, name) => if who == self then Some(SetOwnDisplayName(name)) else None
    case _ => None
  }

  /** Every message the publisher builds records exactly the action it was built for. */
  lemma InterpretBuild(a: Action, self: Identity, scope: Option<Scope>, targetIsPub: bool)
    ensures Interpret(Build(a, self, scope, targetIsPub), self) == Some(a)
  {
  }

  /** Hence different actions never produce the same message. */
  lemma BuildInjective(a: Action, b: Action, self: Identity, scope: Option<Scope>, aIsPub: bool, bIsPub: bool)
    requires Build(a, self, scope, aIsPub) == Build(b, self, scope, bIsPub)
    ensures a == b
  {
    InterpretBuild(a, self, scope, aIsPub);
    InterpretBuild(b, self, scope, bIsPub);
  }

  /** The follow message targets `id`, carries the configured scope, and is
      marked `pub` exactly when the target is a pub. */
  lemma FollowMessageShape(id: Identity, scope: Option<Scope>, isPub: bool)
    ensures FollowMessage(id, scope, isPub).Follow?
    ensures FollowMessage(id, scope, isPub).contact == id
    ensures FollowMessage(id, scope, isPub).scope == scope
    ensures FollowMessage(id, scope, isPub).pub <==> isPub
  {
  }

  /** Like and unlike are the two values of one `ferment/like` link to the same target. */
  lemma LikeToggle(id: string)
    ensures TypeField(LikeMessage(id)) == TypeField(UnlikeMessage(id)) == Some(LIKE_TYPE)
    ensures LikeMessage(id).like == Link(id, Some(true))
    ensures UnlikeMessage(id).like == Link(id, Some(false))
  {
  }

  /** Repost and unrepost are the two values of one `ferment/repost` link to the same target. */
  lemma RepostToggle(id: string)
    ensures TypeField(RepostMessage(id)) == TypeField(UnrepostMessage(id)) == Some(REPOST_TYPE)
    ensures RepostMessage(id).repost == Link(id, Some(true))
    ensures UnrepostMessage(id).repost == Link(id, Some(false))
  {
  }

  // ----- submission outcomes -----

  /** What the log client reports: the id of the appended message, or an error. */
  datatype SubmitResult = Published(id: MessageId) | Failed(error: string)

  /** What the caller observes: its callback invoked with `(err, msg)`, its
      callback invoked with `(err)` only, or the error thrown. */
  datatype Event =
    | Replied(cb: Callback, result: SubmitResult)
    | RepliedError(cb: Callback, err: Option<string>)
    | Raised(thrown: string)

  /** `publish(message, cb)`: the outcome goes to `cb` when there is one;
      without one, an error is thrown and a success is dropped. */
  function PublishDelivery(cb: Option<Callback>, r: SubmitResult): (events: seq<Event>)
    ensures |events| <= 1
    ensures r.Failed? ==> |events| == 1
    ensures cb.Some? ==> events == [Replied(cb.value, r)]
    ensures cb.None? ==> (events == [] <==> r.Published?)
    ensures cb.None? && r.Failed? ==> events == [Raised(r.error)]
  {
    match cb
    case Some(f) => [Replied(f, r)]
    case None => if r.Failed? then [Raised(r.error)] else []
  }

  /** `setOwnDisplayName` calls the log client directly with
      `(err) => cb && cb(err)`: the callback gets the error only, and without
      a callback an error is dropped rather than thrown. */
  function DisplayNameDelivery(cb: Option<Callback>, r: SubmitResult): (events: seq<Event>)
    ensures |events| <= 1
    ensures events != [] <==> cb.Some?
    ensures forall e :: e in events ==> e.RepliedError? && Some(e.cb) == cb
    ensures forall e :: e in events ==> (e.err.Some? <==> r.Failed?)
    ensures forall e :: e in events && r.Failed? ==> e.err == Some(r.error)
  {
    match cb
    case Some(f) => [RepliedError(f, if r.Failed? then Some(r.error) else None)]
    case None => []
  }

  /** Without a callback, an error that `publish` throws is dropped by
      `setOwnDisplayName`; with one, both reach the callback, but the display
      name change never passes on the message id. */
  lemma DisplayNameDropsWhatPublishThrows(e: string, cb: Callback, id: MessageId)
    ensures PublishDelivery(None, Failed(e)) == [Raised(e)]
    ensures DisplayNameDelivery(None, Failed(e)) == []
    ensures PublishDelivery(Some(cb), Published(id)) == [Replied(cb, Published(id))]
    ensures DisplayNameDelivery(Some(cb), Published(id)) == [RepliedError(cb, None)]
  {
  }
}
