// The event loop of pkg/brokers/sse_broker.go. Receivers are channels named by
// the order in which Subscribe made them; the three request channels hold what
// has been sent and not yet handled.
module Broker {
  import opened Rows
  import opened Text

  datatype Message = Message(userId: string, deviceId: string, content: Bytes)

  function Key(m: Message): string {
    Join(m.userId, '_', m.deviceId)
  }

  // Topic names are built like keys (web/routes/ssehandler.go), so with
  // underscore-free user ids an equal key means the same user and device.
  lemma KeysIdentify(m: Message, n: Message)
    requires '_' !in m.userId && '_' !in n.userId && Key(m) == Key(n)
    ensures m.userId == n.userId && m.deviceId == n.deviceId
  {
    JoinInjective(m.userId, m.deviceId, n.userId, n.deviceId, '_');
  }

  // Some device of one user and some device of the other have the same key.
  ghost predicate CanCollide(a: string, b: string) {
    exists m: Message, n: Message :: m.userId == a && n.userId == b && Key(m) == Key(n) &&
      (m.userId, m.deviceId) != (n.userId, n.deviceId)
  }

  lemma CollideAfter(a: string, b: string)
    requires a + "_" <= b
    ensures CanCollide(a, b) && CanCollide(b, a)
  {
    var m, n := Message(a, b[|a| + 1..] + "_", []), Message(b, "", []);
    assert b == a + "_" + b[|a| + 1..];
    assert Key(m) == a + ['_'] + (b[|a| + 1..] + "_") == b + ['_'] + "" == Key(n);
  }

  // Two users' keys can be equal exactly if one id, followed by an underscore,
  // begins the other. Two devices of one user never share a key.
  lemma KeysCollideIff(a: string, b: string)
    ensures CanCollide(a, b) <==> a != b && (a + "_" <= b || b + "_" <= a)
  {
    if CanCollide(a, b) {
      var m: Message, n: Message :| m.userId == a && n.userId == b && Key(m) == Key(n) &&
        (m.userId, m.deviceId) != (n.userId, n.deviceId);
      EqualKeys(a, m.deviceId, b, n.deviceId);
    }
    if a + "_" <= b {
      CollideAfter(a, b);
    } else if b + "_" <= a {
      CollideAfter(b, a);
    }
  }

  lemma EqualKeys(a: string, d: string, b: string, e: string)
    requires Join(a, '_', d) == Join(b, '_', e)
    ensures if a == b then d == e else a + "_" <= b || b + "_" <= a
  {
    var key := Join(a, '_', d);
    assert key[|a|] == '_' && key[|b|] == '_';
    assert a + "_" == key[..|a| + 1] && b + "_" == key[..|b| + 1];
    assert a == key[..|a|] && b == key[..|b|];
    if |a| == |b| {
      assert d == key[|a| + 1..] == e;
    } else if |a| < |b| {
      assert a + "_" == b[..|a| + 1];
    } else {
      assert b + "_" == a[..|b| + 1];
    }
  }

  datatype Subscription = Subscription(ch: nat, name: string)

  // What the loop has handled, in order.
  datatype Event =
    | Subscribed(ch: nat, name: string)
    | Unsubscribed(ch: nat)
    | Handled(msg: Message, to: Option<nat>)

  datatype State = State(
    made: nat,
    subs: seq<Subscription>,
    unsubs: seq<nat>,
    messages: seq<Message>,
    topics: map<nat, string>,
    closed: set<nat>,
    sent: map<nat, seq<Message>>,
    log: seq<Event>)

  const START := State(0, [], [], [], map[], {}, map[], [])

  // Go panics on a second close and on a send to a closed channel.
  datatype Outcome = Running(state: State) | Panicked

  datatype Step =
    | Subscribe(name: string)
    | Unsubscribe(ch: nat)
    | SendMessage(msg: Message)
    | TakeSub
    | TakeUnsub
    | TakeMessage(found: Option<nat>, delivered: bool)

  // findTopicByName: some channel subscribed under the name, if there is one.
  predicate IsFound(topics: map<nat, string>, name: string, found: Option<nat>) {
    match found
    case Some(ch) => ch in topics && topics[ch] == name
    case None => forall ch :: ch in topics ==> topics[ch] != name
  }

  method FindTopicByName(topics: map<nat, string>, name: string) returns (found: Option<nat>)
    ensures IsFound(topics, name, found)
  {
    var todo := topics.Keys;
    while todo != {}
      invariant todo <= topics.Keys
      invariant forall ch :: ch in topics.Keys - todo ==> topics[ch] != name
    {
      var ch :| ch in todo;
      todo := todo - {ch};
      if topics[ch] == name {
        return Some(ch);
      }
    }
    found := None;
  }

  predicate Enabled(s: State, step: Step) {
    match step
    case Unsubscribe(ch) => ch < s.made
    case TakeSub => s.subs != []
    case TakeUnsub => s.unsubs != []
    case TakeMessage(found, _) => s.messages != [] && IsFound(s.topics, Key(s.messages[0]), found)
    case _ => true
  }

  function TakenSub(s: State): State
    requires s.subs != []
  {
    var sub, t := s.subs[0], s.(subs := s.subs[1..]);
    if sub.ch in s.topics then t
    else t.(topics := s.topics[sub.ch := sub.name], log := s.log + [Subscribed(sub.ch, sub.name)])
  }

  function TakenUnsub(s: State): Outcome
    requires s.unsubs != []
  {
    var ch, t := s.unsubs[0], s.(unsubs := s.unsubs[1..]);
    if ch !in s.topics then Running(t)
    else if ch in s.closed then Panicked
    else Running(t.(topics := s.topics - {ch}, closed := s.closed + {ch}, log := s.log + [Unsubscribed(ch)]))
  }

  function SentTo(s: State, ch: nat): seq<Message> {
    if ch in s.sent then s.sent[ch] else []
  }

  // `delivered` is false when the receiver's buffer stays full for ten seconds.
  function TakenMessage(s: State, found: Option<nat>, delivered: bool): Outcome
    requires s.messages != []
  {
    var msg, t := s.messages[0], s.(messages := s.messages[1..]);
    if found.None? || !delivered then Running(t.(log := s.log + [Handled(msg, None)]))
    else if found.value in s.closed then Panicked
    else Running(t.(sent := s.sent[found.value := SentTo(s, found.value) + [msg]],
                    log := s.log + [Handled(msg, found)]))
  }

  function Next(s: State, step: Step): Outcome
    requires Enabled(s, step)
  {
    match step
    case Subscribe(name) => Running(s.(made := s.made + 1, subs := s.subs + [Subscription(s.made, name)]))
    case Unsubscribe(ch) => Running(s.(unsubs := s.unsubs + [ch]))
    case SendMessage(msg) => Running(s.(messages := s.messages + [msg]))
    case TakeSub => Running(TakenSub(s))
    case TakeUnsub => TakenUnsub(s)
    case TakeMessage(found, delivered) => TakenMessage(s, found, delivered)
  }

  // ---- What the log says about a channel ----

  function EventStep(before: Option<string>, e: Event, ch: nat): Option<string> {
    match e
    case Subscribed(c, name) => if c == ch then Some(name) else before
    case Unsubscribed(c) => if c == ch then None else before
    case Handled(_, _) => before
  }

  // The name a channel is subscribed under after these events.
  function ActiveName(log: seq<Event>, ch: nat): Option<string> {
    if log == [] then None else EventStep(ActiveName(log[..|log| - 1], ch), log[|log| - 1], ch)
  }

  // The messages handled between its subscribe and its unsubscribe whose key is
  // its name.
  function Eligible(log: seq<Event>, ch: nat): seq<Message> {
    if log == [] then []
    else
      var before, e := log[..|log| - 1], log[|log| - 1];
      Eligible(before, ch) +
      (if e.Handled? && ActiveName(before, ch) == Some(Key(e.msg)) then [e.msg] else [])
  }

  // The messages that the log says went to a channel.
  function LoggedTo(log: seq<Event>, ch: nat): seq<Message> {
    if log == [] then []
    else
      var before, e := log[..|log| - 1], log[|log| - 1];
      LoggedTo(before, ch) + (if e.Handled? && e.to == Some(ch) then [e.msg] else [])
  }

  predicate Subsequence(a: seq<Message>, b: seq<Message>) {
    a == [] ||
    (b != [] && ((a[|a| - 1] == b[|b| - 1] && Subsequence(a[..|a| - 1], b[..|b| - 1])) || Subsequence(a, b[..|b| - 1])))
  }

  // ---- The invariant ----

  // A channel is in one of these: requested, subscribed, closed; each once.
  predicate Channels(s: State) {
    (forall i :: 0 <= i < |s.subs| ==>
      s.subs[i].ch < s.made && s.subs[i].ch !in s.topics && s.subs[i].ch !in s.closed) &&
    (forall i, j :: 0 <= i < j < |s.subs| ==> s.subs[i].ch != s.subs[j].ch) &&
    (forall ch :: ch in s.topics ==> ch < s.made && ch !in s.closed) &&
    (forall ch :: ch in s.closed ==> ch < s.made)
  }

  predicate ChannelTrue(s: State, ch: nat) {
    NameTrue(s, ch) && Subsequence(SentTo(s, ch), Eligible(s.log, ch)) && SentTo(s, ch) == LoggedTo(s.log, ch) &&
    (ch in s.closed <==> Unsubscribed(ch) in s.log)
  }

  ghost predicate Inv(s: State) {
    Channels(s) && forall ch {:trigger ChannelTrue(s, ch)} :: ChannelTrue(s, ch)
  }

  lemma LogStep(log: seq<Event>, e: Event, ch: nat)
    ensures ActiveName(log + [e], ch) == EventStep(ActiveName(log, ch), e, ch)
    ensures Eligible(log + [e], ch) ==
      if e.Handled? && ActiveName(log, ch) == Some(Key(e.msg)) then Eligible(log, ch) + [e.msg] else Eligible(log, ch)
    ensures LoggedTo(log + [e], ch) ==
      if e.Handled? && e.to == Some(ch) then LoggedTo(log, ch) + [e.msg] else LoggedTo(log, ch)
    ensures Unsubscribed(ch) in log + [e] <==> Unsubscribed(ch) in log || e == Unsubscribed(ch)
  {
    assert (log + [e])[..|log|] == log;
    assert Eligible(log, ch) + [] == Eligible(log, ch);
    assert LoggedTo(log, ch) + [] == LoggedTo(log, ch);
  }

  // The channel got what the log says, and is closed if the log says so.
  predicate LogTrue(s: State, ch: nat) {
    SentTo(s, ch) == LoggedTo(s.log, ch) && (ch in s.closed <==> Unsubscribed(ch) in s.log)
  }

  // The two may grow together, or the second alone.
  predicate GrowsBy(a: seq<Message>, b: seq<Message>, a': seq<Message>, b': seq<Message>, m: Message) {
    (a' == a && (b' == b || b' == b + [m])) || (a' == a + [m] && b' == b + [m])
  }

  lemma SubsequenceGrows(a: seq<Message>, b: seq<Message>, a': seq<Message>, b': seq<Message>, m: Message)
    requires Subsequence(a, b) && GrowsBy(a, b, a', b', m)
    ensures Subsequence(a', b')
  {
    assert (b + [m])[..|b|] == b && (a + [m])[..|a|] == a;
  }

  lemma StepKeepsChannels(s: State, step: Step)
    requires Inv(s) && Enabled(s, step)
    ensures Next(s, step).Running? && Channels(Next(s, step).state)
  {
    if step.TakeMessage? && step.found.Some? {
      assert step.found.value in s.topics;
    }
  }

  predicate NameTrue(s: State, ch: nat) {
    ActiveName(s.log, ch) == NameOf(s.topics, ch)
  }

  lemma MessageGrows(s: State, found: Option<nat>, delivered: bool, ch: nat)
    requires s.messages != [] && TakenMessage(s, found, delivered).Running? && NameTrue(s, ch) && LogTrue(s, ch)
    requires found == Some(ch) ==> ch in s.topics && s.topics[ch] == Key(s.messages[0])
    ensures var t := TakenMessage(s, found, delivered).state;
      NameTrue(t, ch) && LogTrue(t, ch) &&
      GrowsBy(SentTo(s, ch), Eligible(s.log, ch), SentTo(t, ch), Eligible(t.log, ch), s.messages[0])
  {
    LogStep(s.log, Handled(s.messages[0], if delivered then found else None), ch);
  }

  predicate Same(s: State, t: State, ch: nat) {
    NameTrue(t, ch) && LogTrue(t, ch) && SentTo(t, ch) == SentTo(s, ch) && Eligible(t.log, ch) == Eligible(s.log, ch)
  }

  function NameOf(topics: map<nat, string>, ch: nat): Option<string> {
    if ch in topics then Some(topics[ch]) else None
  }

  // An event without a message changes the name as the topics change.
  lemma Silent(s: State, t: State, e: Event, ch: nat)
    requires NameTrue(s, ch) && LogTrue(s, ch) && !e.Handled? && t.log == s.log + [e] && t.sent == s.sent
    requires ch in t.closed <==> ch in s.closed || e == Unsubscribed(ch)
    requires NameOf(t.topics, ch) == EventStep(NameOf(s.topics, ch), e, ch)
    ensures Same(s, t, ch)
  {
    LogStep(s.log, e, ch);
  }

  lemma SubKeeps(s: State, ch: nat)
    requires s.subs != [] && NameTrue(s, ch) && LogTrue(s, ch)
    ensures Same(s, TakenSub(s), ch)
  {
    var sub := s.subs[0];
    if sub.ch !in s.topics {
      Silent(s, TakenSub(s), Subscribed(sub.ch, sub.name), ch);
    }
  }

  lemma UnsubKeeps(s: State, ch: nat)
    requires s.unsubs != [] && NameTrue(s, ch) && LogTrue(s, ch) && TakenUnsub(s).Running?
    ensures Same(s, TakenUnsub(s).state, ch)
  {
    if s.unsubs[0] in s.topics {
      Silent(s, TakenUnsub(s).state, Unsubscribed(s.unsubs[0]), ch);
    }
  }

  lemma StepKeepsChannel(s: State, step: Step, ch: nat)
    requires Enabled(s, step) && Next(s, step).Running? && ChannelTrue(s, ch)
    ensures ChannelTrue(Next(s, step).state, ch)
  {
    var t := Next(s, step).state;
    if step.TakeMessage? {
      MessageGrows(s, step.found, step.delivered, ch);
      SubsequenceGrows(SentTo(s, ch), Eligible(s.log, ch), SentTo(t, ch), Eligible(t.log, ch), s.messages[0]);
    } else if step.TakeSub? {
      SubKeeps(s, ch);
    } else if step.TakeUnsub? {
      UnsubKeeps(s, ch);
    }
  }

  lemma StepKeepsInv(s: State, step: Step)
    requires Inv(s) && Enabled(s, step)
    ensures Next(s, step).Running? && Inv(Next(s, step).state)
  {
    StepKeepsChannels(s, step);
    forall ch: nat ensures ChannelTrue(Next(s, step).state, ch) {
      assert ChannelTrue(s, ch);
      StepKeepsChannel(s, step, ch);
    }
  }

  // ---- Runs ----

  // A run skips steps that are not enabled, and stops at a panic.
  function Run(steps: seq<Step>): Outcome {
    if steps == [] then Running(START)
    else
      match Run(steps[..|steps| - 1])
      case Panicked => Panicked
      case Running(s) => if Enabled(s, steps[|steps| - 1]) then Next(s, steps[|steps| - 1]) else Running(s)
  }

  // In every run: no send on a closed channel, no second close; and each channel
  // has received, in order, some of the messages it was eligible for.
  lemma {:induction false} BrokerSafety(steps: seq<Step>)
    ensures Run(steps).Running? && Inv(Run(steps).state)
    ensures forall ch: nat :: Subsequence(SentTo(Run(steps).state, ch), Eligible(Run(steps).state.log, ch))
  {
    if steps == [] {
      forall ch: nat ensures ChannelTrue(START, ch) {
      }
    } else {
      BrokerSafety(steps[..|steps| - 1]);
      var s := Run(steps[..|steps| - 1]).state;
      if Enabled(s, steps[|steps| - 1]) {
        StepKeepsInv(s, steps[|steps| - 1]);
      }
    }
    var t := Run(steps).state;
    forall ch: nat ensures Subsequence(SentTo(t, ch), Eligible(t.log, ch)) {
      assert ChannelTrue(t, ch);
    }
  }

  // In every run a channel has received exactly the messages that the log says
  // went to it, in order, and is closed exactly if it was unsubscribed.
  lemma LogIsTrue(steps: seq<Step>, ch: nat)
    ensures Run(steps).Running? && SentTo(Run(steps).state, ch) == LoggedTo(Run(steps).state.log, ch)
    ensures ch in Run(steps).state.closed <==> Unsubscribed(ch) in Run(steps).state.log
  {
    BrokerSafety(steps);
    assert ChannelTrue(Run(steps).state, ch);
  }

  // A message that is taken in time, while some channel is subscribed under its
  // key, goes to such a channel, and to no other.
  lemma DeliveredInTime(steps: seq<Step>, found: Option<nat>, ch: nat)
    requires Run(steps).Running? && Enabled(Run(steps).state, TakeMessage(found, true))
    requires var s := Run(steps).state; ch in s.topics && s.topics[ch] == Key(s.messages[0])
    ensures var s := Run(steps).state; var t := Run(steps + [TakeMessage(found, true)]);
      t.Running? && found.Some? && found.value in s.topics && s.topics[found.value] == Key(s.messages[0]) &&
      t.state.log == s.log + [Handled(s.messages[0], found)] &&
      SentTo(t.state, found.value) == SentTo(s, found.value) + [s.messages[0]] &&
      forall c: nat :: c != found.value ==> SentTo(t.state, c) == SentTo(s, c)
  {
    assert (steps + [TakeMessage(found, true)])[..|steps|] == steps;
    BrokerSafety(steps);
  }

  // The messages handled, in order.
  function HandledMessages(log: seq<Event>): seq<Message> {
    if log == [] then []
    else
      HandledMessages(log[..|log| - 1]) + (if log[|log| - 1].Handled? then [log[|log| - 1].msg] else [])
  }

  // The messages sent to the broker, in order.
  function SentMessages(steps: seq<Step>): seq<Message> {
    if steps == [] then []
    else
      SentMessages(steps[..|steps| - 1]) + (if steps[|steps| - 1].SendMessage? then [steps[|steps| - 1].msg] else [])
  }

  // The subscriptions that took effect, and those asked for, in order.
  function MadeSubscriptions(log: seq<Event>): seq<Subscription> {
    if log == [] then []
    else
      var e := log[|log| - 1];
      MadeSubscriptions(log[..|log| - 1]) + (if e.Subscribed? then [Subscription(e.ch, e.name)] else [])
  }

  function AskedNames(steps: seq<Step>): seq<string> {
    if steps == [] then []
    else
      AskedNames(steps[..|steps| - 1]) + (if steps[|steps| - 1].Subscribe? then [steps[|steps| - 1].name] else [])
  }

  predicate Numbered(subs: seq<Subscription>, names: seq<string>) {
    |subs| == |names| && forall i :: 0 <= i < |subs| ==> subs[i] == Subscription(i, names[i])
  }

  lemma MoreHandled(log: seq<Event>, e: Event)
    ensures HandledMessages(log + [e]) == if e.Handled? then HandledMessages(log) + [e.msg] else HandledMessages(log)
    ensures MadeSubscriptions(log + [e]) ==
      if e.Subscribed? then MadeSubscriptions(log) + [Subscription(e.ch, e.name)] else MadeSubscriptions(log)
  {
    assert (log + [e])[..|log|] == log;
    assert HandledMessages(log) + [] == HandledMessages(log);
    assert MadeSubscriptions(log) + [] == MadeSubscriptions(log);
  }

  // `t` has handled or still holds what `s` has, and these besides.
  predicate Adds(s: State, t: State, msgs: seq<Message>, subs: seq<Subscription>) {
    HandledMessages(t.log) + t.messages == HandledMessages(s.log) + s.messages + msgs &&
    MadeSubscriptions(t.log) + t.subs == MadeSubscriptions(s.log) + s.subs + subs
  }

  lemma SubAdds(s: State)
    requires s.subs != [] && s.subs[0].ch !in s.topics
    ensures Adds(s, TakenSub(s), [], [])
  {
    MoreHandled(s.log, Subscribed(s.subs[0].ch, s.subs[0].name));
    assert s.subs == [s.subs[0]] + s.subs[1..];
  }

  lemma UnsubAdds(s: State)
    requires s.unsubs != [] && TakenUnsub(s).Running?
    ensures Adds(s, TakenUnsub(s).state, [], [])
  {
    MoreHandled(s.log, Unsubscribed(s.unsubs[0]));
  }

  lemma MessageAdds(s: State, found: Option<nat>, delivered: bool)
    requires s.messages != [] && TakenMessage(s, found, delivered).Running?
    ensures Adds(s, TakenMessage(s, found, delivered).state, [], [])
  {
    MoreHandled(s.log, Handled(s.messages[0], if delivered then found else None));
    assert s.messages == [s.messages[0]] + s.messages[1..];
  }

  // What a step adds.
  lemma StepAdds(s: State, step: Step)
    requires Inv(s) && Enabled(s, step) && Next(s, step).Running?
    ensures Adds(s, Next(s, step).state, if step.SendMessage? then [step.msg] else [],
                 if step.Subscribe? then [Subscription(s.made, step.name)] else [])
    ensures Next(s, step).state.made == s.made + if step.Subscribe? then 1 else 0
  {
    match step
    case TakeSub => SubAdds(s);
    case TakeUnsub => UnsubAdds(s);
    case TakeMessage(found, delivered) => MessageAdds(s, found, delivered);
    case _ =>
  }

  // In every run the messages are handled in the order in which they were sent,
  // and the subscriptions take effect in the order in which they were asked for;
  // none is lost, and none comes twice.
  lemma {:induction false} FirstInFirstOut(steps: seq<Step>)
    requires AllEnabled(steps)
    ensures Run(steps).Running? && Inv(Run(steps).state)
    ensures HandledMessages(Run(steps).state.log) + Run(steps).state.messages == SentMessages(steps)
    ensures Numbered(MadeSubscriptions(Run(steps).state.log) + Run(steps).state.subs, AskedNames(steps))
    ensures Run(steps).state.made == |AskedNames(steps)|
  {
    BrokerSafety(steps);
    if steps != [] {
      var before, step := steps[..|steps| - 1], steps[|steps| - 1];
      FirstInFirstOut(before);
      StepAdds(Run(before).state, step);
    }
  }

  predicate AllEnabled(steps: seq<Step>) {
    steps == [] ||
    (AllEnabled(steps[..|steps| - 1]) && Run(steps[..|steps| - 1]).Running? &&
     Enabled(Run(steps[..|steps| - 1]).state, steps[|steps| - 1]))
  }

  // ---- The code ----

  // The broker's channels and the topics map of its loop. What was sent to each
  // receiver, and the log, are history.
  class SSEBroker {
    var made: nat
    var subscriberCh: seq<Subscription>
    var unsubscribeCh: seq<nat>
    var messagesCh: seq<Message>
    var topics: map<nat, string>
    var closed: set<nat>
    ghost var sent: map<nat, seq<Message>>
    ghost var log: seq<Event>

    constructor ()
      ensures S() == START && Inv(S())
    {
      made, subscriberCh, unsubscribeCh, messagesCh := 0, [], [], [];
      topics, closed, sent, log := map[], {}, map[], [];
      new;
      BrokerSafety([]);
    }

    ghost function S(): State
      reads this
    {
      State(made, subscriberCh, unsubscribeCh, messagesCh, topics, closed, sent, log)
    }

    method SubscribeTo(topicName: string) returns (receiver: nat)
      requires Inv(S())
      modifies this`made, this`subscriberCh
      ensures Running(S()) == Next(old(S()), Subscribe(topicName)) && Inv(S())
      ensures receiver == old(made) && made == receiver + 1
      ensures subscriberCh == old(subscriberCh) + [Subscription(receiver, topicName)]
    {
      StepKeepsInv(S(), Subscribe(topicName));
      receiver := made;
      made := made + 1;
      subscriberCh := subscriberCh + [Subscription(receiver, topicName)];
    }

    method UnsubscribeFrom(deviceChan: nat)
      requires Inv(S()) && deviceChan < made
      modifies this`unsubscribeCh
      ensures Running(S()) == Next(old(S()), Unsubscribe(deviceChan)) && Inv(S())
      ensures unsubscribeCh == old(unsubscribeCh) + [deviceChan]
    {
      StepKeepsInv(S(), Unsubscribe(deviceChan));
      unsubscribeCh := unsubscribeCh + [deviceChan];
    }

    // `inTime` says whether the broker has room for the message within nine seconds.
    method Send(data: Message, inTime: bool)
      requires Inv(S())
      modifies this`messagesCh
      ensures Running(S()) == (if inTime then Next(old(S()), SendMessage(data)) else Running(old(S()))) && Inv(S())
      ensures messagesCh == if inTime then old(messagesCh) + [data] else old(messagesCh)
    {
      if inTime {
        StepKeepsInv(S(), SendMessage(data));
        messagesCh := messagesCh + [data];
      }
    }

    // The three cases of the loop in Start.

    method HandleSubscriber()
      requires Inv(S()) && subscriberCh != []
      modifies this`subscriberCh, this`topics, this`log
      ensures Running(S()) == Next(old(S()), TakeSub) && Inv(S())
      ensures var sub := old(subscriberCh)[0];
        topics == if sub.ch in old(topics) then old(topics) else old(topics)[sub.ch := sub.name]
    {
      StepKeepsInv(S(), TakeSub);
      var subs := subscriberCh[0];
      subscriberCh := subscriberCh[1..];
      if subs.ch !in topics {
        topics := topics[subs.ch := subs.name];
        log := log + [Subscribed(subs.ch, subs.name)];
      }
    }

    method HandleUnsubscribe()
      requires Inv(S()) && unsubscribeCh != []
      modifies this`unsubscribeCh, this`topics, this`closed, this`log
      ensures Running(S()) == Next(old(S()), TakeUnsub) && Inv(S())
      ensures var ch := old(unsubscribeCh)[0];
        topics == old(topics) - {ch} && closed == if ch in old(topics) then old(closed) + {ch} else old(closed)
    {
      StepKeepsInv(S(), TakeUnsub);
      var ch := unsubscribeCh[0];
      unsubscribeCh := unsubscribeCh[1..];
      if ch in topics {
        topics := topics - {ch};
        closed := closed + {ch};
        log := log + [Unsubscribed(ch)];
      }
    }

    // `inTime` says whether the receiver takes the message within ten seconds.
    method HandleMessage(inTime: bool) returns (found: Option<nat>)
      requires Inv(S()) && messagesCh != []
      modifies this`messagesCh, this`sent, this`log
      ensures IsFound(old(topics), Key(old(messagesCh)[0]), found)
      ensures Running(S()) == Next(old(S()), TakeMessage(found, inTime)) && Inv(S())
      ensures forall ch: nat ::
        SentTo(S(), ch) ==
          if inTime && found == Some(ch) then SentTo(old(S()), ch) + [old(messagesCh)[0]] else SentTo(old(S()), ch)
    {
      var msg := messagesCh[0];
      found := FindTopicByName(topics, Key(msg));
      StepKeepsInv(S(), TakeMessage(found, inTime));
      ghost var before := S();
      messagesCh := messagesCh[1..];
      if found.None? || !inTime {
        log := log + [Handled(msg, None)];
      } else {
        sent := sent[found.value := SentTo(before, found.value) + [msg]];
        log := log + [Handled(msg, found)];
      }
    }
  }
}
