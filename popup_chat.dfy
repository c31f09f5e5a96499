/** The popup community chat widget: a list of shown entries, a draft, and a
    one-slot register holding the last string this client sent, used to tell
    the echo of one's own message from everyone else's. The socket is an
    outbox: every `send_message` emit is the string appended to it. */
module PopupChat {
  import opened Js

  /** Who an entry is shown as coming from. */
  datatype Sender = Me | Other

  /** A shown entry. The id is drawn at random by the widget and is opaque
      here, so the caller supplies it; the display timestamp is not modelled. */
  datatype Message = Message(id: string, text: string, sender: Sender)

  /** The widget's whole state: `chat`, the draft `message`, the register
      `lastSentMessageRef.current` and the strings emitted as `send_message`. */
  datatype Widget = Widget(chat: seq<Message>, draft: string, lastSent: Option<string>, outbox: seq<string>)

  /** The state right after mounting: nothing shown, empty draft, null register. */
  const Initial := Widget([], "", None, [])

  /** The `receive_message` handler: one entry holding the broadcast string
      is appended, shown as mine exactly when the string equals the register,
      and a match empties the register. */
  function Receive(w: Widget, data: string, id: string): (r: Widget)
    ensures |r.chat| == |w.chat| + 1 && r.chat[..|w.chat|] == w.chat
    ensures r.chat[|w.chat|].text == data && r.chat[|w.chat|].id == id
    ensures r.chat[|w.chat|].sender == Me <==> w.lastSent == Some(data)
    ensures w.lastSent == Some(data) ==> r.lastSent == None
    ensures w.lastSent != Some(data) ==> r.lastSent == w.lastSent
    ensures r.draft == w.draft && r.outbox == w.outbox
  {
    var isMe := w.lastSent == Some(data);
    w.(chat := w.chat + [Message(id, data, if isMe then Me else Other)],
       lastSent := if isMe then None else w.lastSent)
  }

  /** `sendMessage`: a blank draft changes nothing; otherwise the untrimmed
      draft goes into the register and out on the socket, and the draft is
      cleared. */
  function Send(w: Widget): (r: Widget)
    ensures IsBlank(w.draft) ==> r == w
    ensures !IsBlank(w.draft) ==>
              r.lastSent == Some(w.draft) && r.outbox == w.outbox + [w.draft] &&
              r.draft == "" && r.chat == w.chat
  {
    TrimEmptyIffBlank(w.draft);
    if Trim(w.draft) == "" then w
    else w.(lastSent := Some(w.draft), outbox := w.outbox + [w.draft], draft := "")
  }

  /** The send button's `disabled={!message.trim()}`: disabled exactly for a
      blank draft. */
  function SendDisabled(draft: string): (d: bool)
    ensures d <==> IsBlank(draft)
  {
    TrimEmptyIffBlank(draft);
    Trim(draft) == ""
  }

  /** The button is disabled exactly when pressing it would emit nothing. */
  lemma SendDisabledMatchesGuard(w: Widget)
    ensures SendDisabled(w.draft) <==> Send(w).outbox == w.outbox
    ensures SendDisabled(w.draft) <==> Send(w) == w
  {
  }

  /** A match clears the register, so a second identical broadcast is shown
      as someone else's. */
  lemma RepeatedEchoIsOther(w: Widget, data: string, id1: string, id2: string)
    requires w.lastSent == Some(data)
    ensures var w1 := Receive(w, data, id1);
            var w2 := Receive(w1, data, id2);
            w1.chat[|w.chat|].sender == Me && w2.chat[|w1.chat|].sender == Other
  {
  }

  /** Two non-blank sends in a row: both strings go out in order, the second
      is registered, and nothing is shown yet. */
  lemma SendTwice(w: Widget, a: string, b: string)
    requires !IsBlank(a) && !IsBlank(b)
    ensures Send(Send(w.(draft := a)).(draft := b)) ==
            w.(draft := "", lastSent := Some(b), outbox := w.outbox + [a, b])
  {
    assert w.outbox + [a] + [b] == w.outbox + [a, b];
  }

  /** Sending `b` before the echo of `a` arrives overwrites the register: the
      echo of `a` is shown as someone else's and `b` stays registered, so
      `b`'s own echo is then shown as mine. */
  lemma ResendBeforeEcho(w: Widget, a: string, b: string, idA: string, idB: string)
    requires !IsBlank(a) && !IsBlank(b) && a != b
    ensures var w1 := Send(w.(draft := a));
            var w2 := Send(w1.(draft := b));
            var w3 := Receive(w2, a, idA);
            var w4 := Receive(w3, b, idB);
            w2.outbox == w.outbox + [a, b] &&
            w3.chat[|w.chat|].sender == Other && w3.lastSent == Some(b) &&
            w4.chat[|w.chat| + 1].sender == Me && w4.lastSent == None
  {
    SendTwice(w, a, b);
  }

  /** Number of entries shown as mine. */
  function MeCount(chat: seq<Message>): (n: nat)
    ensures n <= |chat|
  {
    if chat == [] then 0
    else MeCount(chat[..|chat| - 1]) + (if chat[|chat| - 1].sender == Me then 1 else 0)
  }

  /** What attribution by payload equality still guarantees: a registered
      string is the last one emitted and is not blank; every entry shown as
      mine carries a string this client emitted; and the entries shown as
      mine, plus the one still awaited, never outnumber the emits. */
  ghost predicate Sound(w: Widget)
  {
    && (w.lastSent.Some? ==>
          w.outbox != [] && w.lastSent.value == w.outbox[|w.outbox| - 1] &&
          !IsBlank(w.lastSent.value))
    && (forall i :: 0 <= i < |w.chat| && w.chat[i].sender == Me ==> w.chat[i].text in w.outbox)
    && MeCount(w.chat) + (if w.lastSent.Some? then 1 else 0) <= |w.outbox|
  }

  lemma InitialSound()
    ensures Sound(Initial)
  {
  }

  /** Input events the widget reacts to: typing into the field, submitting
      the form, and a broadcast arriving (with the id the entry gets). */
  datatype Event = Edit(text: string) | Submit | Broadcast(data: string, id: string)

  function Step(w: Widget, e: Event): Widget
  {
    match e
    case Edit(text) => w.(draft := text)
    case Submit => Send(w)
    case Broadcast(data, id) => Receive(w, data, id)
  }

  /** The state after handling `evs` one at a time, in order. */
  function Run(w: Widget, evs: seq<Event>): Widget
    decreases |evs|
  {
    if evs == [] then w else Run(Step(w, evs[0]), evs[1..])
  }

  lemma {:induction false} MeCountAppend(chat: seq<Message>, m: Message)
    ensures MeCount(chat + [m]) == MeCount(chat) + (if m.sender == Me then 1 else 0)
  {
    assert (chat + [m])[..|chat|] == chat;
  }

  lemma SendSound(w: Widget)
    requires Sound(w)
    ensures Sound(Send(w))
  {
  }

  lemma ReceiveSound(w: Widget, data: string, id: string)
    requires Sound(w)
    ensures Sound(Receive(w, data, id))
  {
    var r := Receive(w, data, id);
    MeCountAppend(w.chat, r.chat[|w.chat|]);
    assert r.chat == w.chat + [r.chat[|w.chat|]];
    forall i | 0 <= i < |r.chat| && r.chat[i].sender == Me
      ensures r.chat[i].text in r.outbox
    {
      if i < |w.chat| { assert r.chat[i] == w.chat[i]; }
    }
  }

  /** Every event keeps the attribution invariant. */
  lemma StepSound(w: Widget, e: Event)
    requires Sound(w)
    ensures Sound(Step(w, e))
  {
    match e
    case Edit(text) =>
    case Submit => SendSound(w);
    case Broadcast(data, id) => ReceiveSound(w, data, id);
  }

  /** Any run keeps the attribution invariant and only ever appends entries. */
  lemma {:induction false} RunSound(w: Widget, evs: seq<Event>)
    requires Sound(w)
    ensures Sound(Run(w, evs))
    ensures |w.chat| <= |Run(w, evs).chat| && Run(w, evs).chat[..|w.chat|] == w.chat
    decreases |evs|
  {
    if evs != [] {
      var w1 := Step(w, evs[0]);
      StepSound(w, evs[0]);
      RunSound(w1, evs[1..]);
      assert w1.chat[..|w.chat|] == w.chat;
      assert Run(w1, evs[1..]).chat[..|w1.chat|][..|w.chat|] == Run(w1, evs[1..]).chat[..|w.chat|];
    }
  }

  /** From mounting on, no sequence of events shows more entries as mine
      than this client has sent messages. */
  lemma MineNeverExceedsSent(evs: seq<Event>)
    ensures MeCount(Run(Initial, evs).chat) <= |Run(Initial, evs).outbox|
  {
    RunSound(Initial, evs);
  }

  /** The component instance: React state and the ref as fields, every
      handler a method whose new state is the matching function's. */
  class ChatWidget {
    var chat: seq<Message>
    var draft: string
    var lastSent: Option<string>
    var outbox: seq<string>

    function State(): (w: Widget)
      reads this
    {
      Widget(chat, draft, lastSent, outbox)
    }

    ghost predicate Valid()
      reads this
    {
      Sound(State())
    }

    constructor ()
      ensures State() == Initial && Valid()
    {
      chat, draft, lastSent, outbox := [], "", None, [];
    }

    /** The input's `onChange`. */
    method Edit(text: string)
      requires Valid()
      modifies this
      ensures State() == old(State()).(draft := text) && Valid()
    {
      draft := text;
    }

    method SendMessage()
      requires Valid()
      modifies this
      ensures State() == Send(old(State())) && Valid()
    {
      StepSound(State(), Submit);
      if Trim(draft) == "" {
        return;
      }
      lastSent := Some(draft);
      outbox := outbox + [draft];
      draft := "";
    }

    method ReceiveMessage(data: string, id: string)
      requires Valid()
      modifies this
      ensures State() == Receive(old(State()), data, id) && Valid()
    {
      StepSound(State(), Broadcast(data, id));
      var isMe := lastSent == Some(data);
      chat := chat + [Message(id, data, if isMe then Me else Other)];
      if isMe {
        lastSent := None;
      }
    }

    /** Whether the send button is disabled right now. */
    method IsSendDisabled() returns (d: bool)
      ensures d <==> IsBlank(draft)
    {
      TrimEmptyIffBlank(draft);
      d := Trim(draft) == "";
    }
  }
}
