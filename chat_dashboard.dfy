/** The chat dashboard page: the handlers its socket registers on creation
    and the two handlers the message form calls. Emits are appended to an
    outbox; time is a millisecond clock; each `setTimeout` reset of the
    typing flag is a pending deadline that fires once the clock reaches it. */
module ChatDashboard {
  import opened Js

  /** Delay of the reset scheduled by every `typing` event. */
  const TypingResetMs: nat := 3000

  /** The id `activeChat` is initialised with. */
  const GeneralChatId: string := "general"

  /** A user object (the signed-in `user`, or a message's `sender`): only
      the `_id` and `username` fields are read, and either may be missing
      or `null`. */
  datatype Person = Person(id: Value<string>, username: Value<string>)

  /** A `receive_message` payload as the page reads it. `createdAt` only
      feeds a displayed time and is not modelled. */
  datatype Payload = Payload(id: Value<string>, sender: Value<Person>, content: string)

  /** Client-to-server events, each naming a chat. */
  datatype Emit =
    | EmitJoin(chatId: string)
    | EmitSend(chatId: string, content: string)
    | EmitTyping(chatId: string)

  /** The page's state. `hasSocket` says whether the `socket` state holds
      the socket yet; `pending` holds the deadline of every scheduled reset. */
  datatype Dashboard = Dashboard(
    user: Value<Person>,
    hasSocket: bool,
    activeChat: string,
    messages: seq<Payload>,
    input: string,
    isTyping: bool,
    pending: seq<nat>,
    clock: nat,
    outbox: seq<Emit>)

  /** The state on first render, with the clock at `now`. */
  function Initial(now: nat): Dashboard
  {
    Dashboard(Null, false, GeneralChatId, [], "", false, [], now, [])
  }

  /** `getMe` succeeded: the user is stored and the socket is created and
      stored. */
  function SignIn(st: Dashboard, u: Value<Person>): (r: Dashboard)
    ensures r.user == u && r.hasSocket
    ensures r.(user := st.user, hasSocket := st.hasSocket) == st
  {
    st.(user := u, hasSocket := true)
  }

  /** The `connect` handler, run on every (re)connection: one `join_chat`
      for the active chat. */
  function OnConnect(st: Dashboard): (r: Dashboard)
    ensures r.outbox == st.outbox + [EmitJoin(st.activeChat)]
    ensures r.(outbox := st.outbox) == st
  {
    st.(outbox := st.outbox + [EmitJoin(st.activeChat)])
  }

  /** The `receive_message` handler: the payload goes at the end, whatever
      is already there. */
  function OnReceive(st: Dashboard, p: Payload): (r: Dashboard)
    ensures |r.messages| == |st.messages| + 1
    ensures r.messages[..|st.messages|] == st.messages && r.messages[|st.messages|] == p
    ensures r.(messages := st.messages) == st
  {
    st.(messages := st.messages + [p])
  }

  /** The `typing` handler: the flag goes up and a reset is scheduled
      `TypingResetMs` from now; earlier resets stay scheduled. */
  function OnTyping(st: Dashboard): (r: Dashboard)
    ensures r.isTyping
    ensures r.pending == st.pending + [st.clock + TypingResetMs]
    ensures r.(isTyping := st.isTyping, pending := st.pending) == st
  {
    st.(isTyping := true, pending := st.pending + [st.clock + TypingResetMs])
  }

  /** Some scheduled reset is due at time `now`. */
  predicate Due(pending: seq<nat>, now: nat)
  {
    exists i :: 0 <= i < |pending| && pending[i] <= now
  }

  /** The resets still scheduled after every one due at `now` has fired:
      each later deadline keeps all its copies, each due one loses all. */
  function Remaining(pending: seq<nat>, now: nat): (r: seq<nat>)
    ensures forall i :: 0 <= i < |r| ==> now < r[i]
    ensures forall d :: d in r <==> d in pending && now < d
    ensures forall d :: multiset(r)[d] == if now < d then multiset(pending)[d] else 0
    ensures Due(pending, now) <==> |r| < |pending|
    ensures !Due(pending, now) ==> r == pending
    ensures (forall i :: 0 <= i < |pending| ==> pending[i] <= now) ==> r == []
  {
    if pending == [] then []
    else
      var rest := Remaining(pending[1..], now);
      var r := if pending[0] <= now then rest else [pending[0]] + rest;
      ConsFacts(pending, rest, r, now);
      r
  }

  /** What one step of `Remaining` keeps: the facts about the rest of the
      deadlines carry over to the whole once the first is dropped or kept. */
  lemma ConsFacts(pending: seq<nat>, rest: seq<nat>, r: seq<nat>, now: nat)
    requires pending != []
    requires forall i :: 0 <= i < |rest| ==> now < rest[i]
    requires forall d :: multiset(rest)[d] == if now < d then multiset(pending[1..])[d] else 0
    requires Due(pending[1..], now) <==> |rest| < |pending[1..]|
    requires !Due(pending[1..], now) ==> rest == pending[1..]
    requires r == if pending[0] <= now then rest else [pending[0]] + rest
    ensures forall i :: 0 <= i < |r| ==> now < r[i]
    ensures forall d :: d in r <==> d in pending && now < d
    ensures forall d :: multiset(r)[d] == if now < d then multiset(pending)[d] else 0
    ensures Due(pending, now) <==> |r| < |pending|
    ensures !Due(pending, now) ==> r == pending
    ensures (forall i :: 0 <= i < |pending| ==> pending[i] <= now) ==> r == []
  {
    DueCons(pending, now);
    CountCons(pending, rest, r, now);
    assert pending == [pending[0]] + pending[1..];
    if forall i :: 0 <= i < |pending| ==> pending[i] <= now {
      assert forall i :: 0 <= i < |pending[1..]| ==> pending[1..][i] <= now by {
        forall i | 0 <= i < |pending[1..]| ensures pending[1..][i] <= now {
          assert pending[1..][i] == pending[i + 1];
        }
      }
    }
    forall d ensures d in r <==> d in pending && now < d {
      assert d in r <==> multiset(r)[d] > 0;
      assert d in pending <==> multiset(pending)[d] > 0;
    }
  }

  lemma DueCons(pending: seq<nat>, now: nat)
    requires pending != []
    ensures Due(pending, now) <==> pending[0] <= now || Due(pending[1..], now)
  {
    if Due(pending, now) {
      var i :| 0 <= i < |pending| && pending[i] <= now;
      if i > 0 { assert pending[1..][i - 1] <= now; }
    }
    if Due(pending[1..], now) {
      var j :| 0 <= j < |pending[1..]| && pending[1..][j] <= now;
      assert pending[j + 1] <= now;
    }
  }

  /** One step of `Remaining`: dropping or keeping the first deadline
      carries the copy counts of the rest over to the whole. */
  lemma CountCons(pending: seq<nat>, rest: seq<nat>, r: seq<nat>, now: nat)
    requires pending != []
    requires forall d :: multiset(rest)[d] == if now < d then multiset(pending[1..])[d] else 0
    requires r == if pending[0] <= now then rest else [pending[0]] + rest
    ensures forall d :: multiset(r)[d] == if now < d then multiset(pending)[d] else 0
  {
    assert pending == [pending[0]] + pending[1..];
    assert multiset(pending) == multiset{pending[0]} + multiset(pending[1..]);
    if pending[0] > now {
      assert multiset(r) == multiset{pending[0]} + multiset(rest);
    }
  }

  /** The clock moves to `now` and every reset due by then fires; each such
      reset lowers the flag. */
  function Tick(st: Dashboard, now: nat): (r: Dashboard)
    requires st.clock <= now
    ensures r.clock == now
    ensures Due(st.pending, now) ==> !r.isTyping
    ensures !Due(st.pending, now) ==> r.isTyping == st.isTyping && r.pending == st.pending
    ensures forall d :: d in r.pending <==> d in st.pending && now < d
    ensures forall d :: multiset(r.pending)[d] == if now < d then multiset(st.pending)[d] else 0
    ensures r.(clock := st.clock, isTyping := st.isTyping, pending := st.pending) == st
  {
    st.(clock := now,
        isTyping := if Due(st.pending, now) then false else st.isTyping,
        pending := Remaining(st.pending, now))
  }

  /** `sendMessage`: with a blank input or no socket nothing happens;
      otherwise one `send_message` for the active chat carrying the untrimmed
      input, and the input is cleared. */
  function Send(st: Dashboard): (r: Dashboard)
    ensures IsBlank(st.input) || !st.hasSocket ==> r == st
    ensures !IsBlank(st.input) && st.hasSocket ==>
              r.outbox == st.outbox + [EmitSend(st.activeChat, st.input)] &&
              r.input == "" && r.(outbox := st.outbox, input := st.input) == st
  {
    TrimEmptyIffBlank(st.input);
    if Trim(st.input) == "" || !st.hasSocket then st
    else st.(outbox := st.outbox + [EmitSend(st.activeChat, st.input)], input := "")
  }

  /** `handleTyping`, run on every key press in the input: one `typing`
      emit for the active chat when there is a socket; nothing else changes. */
  function TypingNotice(st: Dashboard): (r: Dashboard)
    ensures st.hasSocket ==> r.outbox == st.outbox + [EmitTyping(st.activeChat)]
    ensures !st.hasSocket ==> r.outbox == st.outbox
    ensures r.(outbox := st.outbox) == st
  {
    if st.hasSocket then st.(outbox := st.outbox + [EmitTyping(st.activeChat)]) else st
  }

  /** The value of `sender?._id`: `undefined` when there is no sender, the
      field as stored otherwise. */
  function SenderId(p: Payload): Value<string>
  {
    match p.sender
    case Defined(s) => s.id
    case _ => Undefined
  }

  /** The value of `user?._id`: `undefined` before sign-in. */
  function UserId(user: Value<Person>): Value<string>
  {
    match user
    case Defined(u) => u.id
    case _ => Undefined
  }

  /** `msg.sender?._id === user?._id`: a message is drawn as mine exactly
      when both ids are the same string, both are `undefined`, or both are
      `null`. */
  function IsMine(p: Payload, user: Value<Person>): (mine: bool)
    ensures mine <==> (SenderId(p).Undefined? && UserId(user).Undefined?) ||
                      (SenderId(p).Null? && UserId(user).Null?) ||
                      (SenderId(p).Defined? && UserId(user).Defined? &&
                       SenderId(p).value == UserId(user).value)
  {
    SenderId(p) == UserId(user)
  }

  /** `msg.sender?.username || 'System'`: the sender's username when it is
      a non-empty string (`undefined`, `null` and `""` are falsy), otherwise
      "System". */
  function SenderName(p: Payload): (name: string)
    ensures name != ""
    ensures p.sender.Defined? && p.sender.value.username.Defined? && p.sender.value.username.value != "" ==>
              name == p.sender.value.username.value
    ensures !p.sender.Defined? || !p.sender.value.username.Defined? || p.sender.value.username.value == "" ==>
              name == "System"
  {
    match p.sender
    case Defined(Person(_, Defined(n))) => if n != "" then n else "System"
    case _ => "System"
  }

  /** A message without a sender (`null` or missing) is drawn as mine exactly
      while `user?._id` is `undefined` (before sign-in, in particular), and
      is labelled "System". */
  lemma SystemMessageOwnership(p: Payload, user: Value<Person>)
    requires !p.sender.Defined?
    ensures IsMine(p, user) <==> UserId(user).Undefined?
    ensures SenderName(p) == "System"
  {
  }

  /** `null === undefined` is false: a sender whose `_id` is `null` is not
      mine while no user is signed in, but a sender without `_id` is. */
  lemma NullIdDiffersFromMissing(name: Value<string>)
    ensures !IsMine(Payload(Undefined, Defined(Person(Null, name)), ""), Null)
    ensures IsMine(Payload(Undefined, Defined(Person(Undefined, name)), ""), Null)
  {
  }

  /** No deduplication: a payload whose id is already shown is appended a
      second time. */
  lemma DuplicateIdAppended(st: Dashboard, p: Payload, k: nat)
    requires k < |st.messages| && st.messages[k].id == p.id
    ensures var r := OnReceive(st, p);
            |r.messages| == |st.messages| + 1 && k != |st.messages| &&
            r.messages[k].id == r.messages[|st.messages|].id
  {
  }

  /** The typing timers as the page keeps them: every scheduled reset is in
      the future but at most `TypingResetMs` away, and while the flag is up
      some reset is still scheduled. */
  ghost predicate TypingSound(st: Dashboard)
  {
    && (forall i :: 0 <= i < |st.pending| ==>
          st.clock < st.pending[i] <= st.clock + TypingResetMs)
    && (st.isTyping ==> st.pending != [])
  }

  /** Emits always name the active chat. */
  ghost predicate EmitsTargetActive(st: Dashboard)
  {
    forall i :: 0 <= i < |st.outbox| ==> st.outbox[i].chatId == st.activeChat
  }

  ghost predicate Sound(st: Dashboard)
  {
    TypingSound(st) && EmitsTargetActive(st)
  }

  lemma InitialSound(now: nat)
    ensures Sound(Initial(now)) && Initial(now).activeChat == GeneralChatId
  {
  }

  /** The flag never stays up longer than `TypingResetMs` past the clock:
      once that much time has passed every reset has fired. */
  lemma TypingClearsWithinWindow(st: Dashboard, now: nat)
    requires TypingSound(st) && st.clock + TypingResetMs <= now
    ensures !Tick(st, now).isTyping && Tick(st, now).pending == []
  {
    if st.isTyping {
      assert st.pending[0] <= now;
    }
  }

  /** Typing at the clock and ticking `gap` later keeps that first reset. */
  lemma FirstResetPending(st: Dashboard, gap: nat)
    requires 0 < gap < TypingResetMs
    ensures var m := Tick(OnTyping(st), st.clock + gap);
            m.clock == st.clock + gap && st.clock + TypingResetMs in m.pending
  {
    var s1 := OnTyping(st);
    assert s1.pending[|st.pending|] == st.clock + TypingResetMs;
  }

  /** With a reset due at `now` and another one after it, a tick at `now`
      lowers the flag and keeps the later reset. */
  lemma DueAndLaterReset(s: Dashboard, now: nat, later: nat)
    requires s.clock <= now < later
    requires now in s.pending && later in s.pending
    ensures !Tick(s, now).isTyping && later in Tick(s, now).pending
  {
    var i :| 0 <= i < |s.pending| && s.pending[i] == now;
    assert Due(s.pending, now);
  }

  /** Resets are never cancelled: after typing at `t` and again at `t + gap`
      (with `gap` under the window), the first reset still lowers the flag
      at `t + TypingResetMs`, only `TypingResetMs - gap` after the latest
      typing event, and the second reset is still to come. */
  lemma EarliestResetClearsFlag(st: Dashboard, gap: nat)
    requires 0 < gap < TypingResetMs
    ensures OnTyping(Tick(OnTyping(st), st.clock + gap)).isTyping
    ensures !Tick(OnTyping(Tick(OnTyping(st), st.clock + gap)), st.clock + TypingResetMs).isTyping
    ensures st.clock + gap + TypingResetMs in
              Tick(OnTyping(Tick(OnTyping(st), st.clock + gap)), st.clock + TypingResetMs).pending
  {
    FirstResetPending(st, gap);
    var s2 := OnTyping(Tick(OnTyping(st), st.clock + gap));
    assert s2.pending[|s2.pending| - 1] == st.clock + gap + TypingResetMs;
    DueAndLaterReset(s2, st.clock + TypingResetMs, st.clock + gap + TypingResetMs);
  }

  /** What can happen to the page: its socket's events, clock time passing,
      and the user's sign-in, edits, key presses and submits. */
  datatype Event =
    | SignedIn(u: Value<Person>)
    | Connected
    | Received(p: Payload)
    | TypingReceived
    | Elapse(ms: nat)
    | Edit(text: string)
    | KeyDown
    | Submit

  function Step(st: Dashboard, e: Event): Dashboard
  {
    match e
    case SignedIn(u) => SignIn(st, u)
    case Connected => OnConnect(st)
    case Received(p) => OnReceive(st, p)
    case TypingReceived => OnTyping(st)
    case Elapse(ms) => Tick(st, st.clock + ms)
    case Edit(text) => st.(input := text)
    case KeyDown => TypingNotice(st)
    case Submit => Send(st)
  }

  function Run(st: Dashboard, evs: seq<Event>): Dashboard
    decreases |evs|
  {
    if evs == [] then st else Run(Step(st, evs[0]), evs[1..])
  }

  lemma StepSound(st: Dashboard, e: Event)
    requires Sound(st)
    ensures Sound(Step(st, e)) && Step(st, e).activeChat == st.activeChat
  {
    match e
    case Elapse(ms) => TickSound(st, st.clock + ms);
    case TypingReceived =>
    case SignedIn(u) => EmitSound(st, Step(st, e));
    case Received(p) => EmitSound(st, Step(st, e));
    case Edit(text) => EmitSound(st, Step(st, e));
    case Connected => EmitSound(st, Step(st, e));
    case KeyDown => EmitSound(st, Step(st, e));
    case Submit => EmitSound(st, Step(st, e));
  }

  /** A step that leaves the timers alone and emits at most once, for the
      active chat, keeps the invariants. */
  lemma EmitSound(st: Dashboard, r: Dashboard)
    requires Sound(st)
    requires r.pending == st.pending && r.clock == st.clock && r.isTyping == st.isTyping
    requires r.activeChat == st.activeChat
    requires r.outbox == st.outbox ||
             (|r.outbox| == |st.outbox| + 1 && r.outbox[..|st.outbox|] == st.outbox &&
              r.outbox[|st.outbox|].chatId == st.activeChat)
    ensures Sound(r)
  {
    forall i | 0 <= i < |r.outbox| ensures r.outbox[i].chatId == r.activeChat {
      if i < |st.outbox| { assert r.outbox[i] == st.outbox[i]; }
    }
  }

  lemma TickSound(st: Dashboard, now: nat)
    requires Sound(st) && st.clock <= now
    ensures Sound(Tick(st, now))
  {
    var r := Tick(st, now);
    forall i | 0 <= i < |r.pending|
      ensures r.clock < r.pending[i] <= r.clock + TypingResetMs
    {
      assert r.pending[i] in st.pending;
    }
  }

  /** Any run keeps the invariants, never changes the active chat, and only
      ever appends messages and emits. */
  lemma {:induction false} RunSound(st: Dashboard, evs: seq<Event>)
    requires Sound(st)
    ensures var r := Run(st, evs);
            Sound(r) && r.activeChat == st.activeChat &&
            |st.messages| <= |r.messages| && r.messages[..|st.messages|] == st.messages &&
            |st.outbox| <= |r.outbox| && r.outbox[..|st.outbox|] == st.outbox
    decreases |evs|
  {
    if evs != [] {
      var s1 := Step(st, evs[0]);
      StepSound(st, evs[0]);
      RunSound(s1, evs[1..]);
      var r := Run(s1, evs[1..]);
      assert s1.messages[..|st.messages|] == st.messages;
      assert r.messages[..|s1.messages|][..|st.messages|] == r.messages[..|st.messages|];
      assert s1.outbox[..|st.outbox|] == st.outbox;
      assert r.outbox[..|s1.outbox|][..|st.outbox|] == r.outbox[..|st.outbox|];
    }
  }

  /** From the first render on, whatever happens, the active chat is still
      "general" and every emit names it. */
  lemma ActiveChatStaysGeneral(now: nat, evs: seq<Event>)
    ensures var r := Run(Initial(now), evs);
            r.activeChat == GeneralChatId &&
            forall i :: 0 <= i < |r.outbox| ==> r.outbox[i].chatId == GeneralChatId
  {
    RunSound(Initial(now), evs);
  }

  /** `n` connections in a row, reconnections included, emit `n` joins for
      the active chat. */
  lemma {:induction false} EveryConnectJoins(st: Dashboard, n: nat)
    ensures Run(st, seq(n, _ => Connected)).outbox ==
            st.outbox + seq(n, _ => EmitJoin(st.activeChat))
    decreases n
  {
    if n > 0 {
      var evs := seq(n, _ => Connected);
      assert evs[1..] == seq(n - 1, _ => Connected);
      EveryConnectJoins(OnConnect(st), n - 1);
      assert [EmitJoin(st.activeChat)] + seq(n - 1, _ => EmitJoin(st.activeChat)) ==
             seq(n, _ => EmitJoin(st.activeChat));
    }
  }

  /** The page component: its React state as fields, every handler a method
      whose new state is the matching function's. */
  class ChatDashboardPage {
    var user: Value<Person>
    var hasSocket: bool
    var activeChat: string
    var messages: seq<Payload>
    var input: string
    var isTyping: bool
    var pending: seq<nat>
    var clock: nat
    var outbox: seq<Emit>

    function State(): (st: Dashboard)
      reads this
    {
      Dashboard(user, hasSocket, activeChat, messages, input, isTyping, pending, clock, outbox)
    }

    ghost predicate Valid()
      reads this
    {
      Sound(State())
    }

    constructor (now: nat)
      ensures State() == Initial(now) && Valid()
    {
      user, hasSocket, activeChat := Null, false, GeneralChatId;
      messages, input, isTyping, pending := [], "", false, [];
      clock, outbox := now, [];
    }

    method Start(u: Value<Person>)
      requires Valid()
      modifies this
      ensures State() == SignIn(old(State()), u) && Valid()
    {
      user := u;
      hasSocket := true;
    }

    method Connect()
      requires Valid()
      modifies this
      ensures State() == OnConnect(old(State())) && Valid()
    {
      StepSound(State(), Connected);
      outbox := outbox + [EmitJoin(activeChat)];
    }

    method ReceiveMessage(p: Payload)
      requires Valid()
      modifies this
      ensures State() == OnReceive(old(State()), p) && Valid()
    {
      messages := messages + [p];
    }

    method PeerTyping()
      requires Valid()
      modifies this
      ensures State() == OnTyping(old(State())) && Valid()
    {
      isTyping := true;
      pending := pending + [clock + TypingResetMs];
    }

    /** Time reaches `now`: every reset due by then fires. */
    method AdvanceTo(now: nat)
      requires Valid() && clock <= now
      modifies this
      ensures State() == Tick(old(State()), now) && Valid()
    {
      StepSound(State(), Elapse(now - clock));
      if Due(pending, now) {
        isTyping := false;
      }
      pending := Remaining(pending, now);
      clock := now;
    }

    /** The input's `onChange`. */
    method SetInput(text: string)
      requires Valid()
      modifies this
      ensures State() == old(State()).(input := text) && Valid()
    {
      input := text;
    }

    method SendMessage()
      requires Valid()
      modifies this
      ensures State() == Send(old(State())) && Valid()
    {
      StepSound(State(), Submit);
      TrimEmptyIffBlank(input);
      if Trim(input) == "" || !hasSocket {
        return;
      }
      outbox := outbox + [EmitSend(activeChat, input)];
      input := "";
    }

    method HandleTyping()
      requires Valid()
      modifies this
      ensures State() == TypingNotice(old(State())) && Valid()
    {
      if hasSocket {
        outbox := outbox + [EmitTyping(activeChat)];
      }
    }
  }
}
