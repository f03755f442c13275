/**
 * The communicator's objects. A method is one critical section, or one call run without interleaving;
 * what the broker, the clock, the regular expressions and the callbacks decide is a parameter.
 */
module Communicator {
  import opened Results
  import opened Subscriptions
  import opened Dispatch
  import Connection

  /** What a woken getter comes to. */
  datatype LookResult = Found(msg: Message) | TimeoutError | SleepsOn

  /** A subscription handle; callback and get-style handles share the class. */
  class SubscriptionHandle {
    const qos: int
    const callback: bool
    var messages: seq<Message>
    ghost var taken: seq<Message>
    ghost var inside: map<Thread, Phase>
    ghost var crowded: bool

    constructor (qos: int, callback: bool)
      ensures this.qos == qos && this.callback == callback
      ensures View() == NewSubscription(callback)
    {
      this.qos, this.callback, messages := qos, callback, [];
      taken, inside, crowded := [], map[], false;
    }

    /** The handle as the step machine sees it. */
    ghost function View(): Subscription
      reads this
    {
      Subscription(callback, messages, taken, inside, crowded)
    }

    /** add_message; woken is the thread that notify_one picks, if it is called with a sleeper. */
    method AddMessage(msg: Message, ghost woken: Option<Thread>) returns (notify: bool)
      requires MayWake(View(), woken)
      modifies this
      ensures View() == Subscriptions.AddMessage(old(View()), msg, woken)
      ensures notify <==> !callback && old(messages) == []
    {
      if callback {
        taken := taken + [msg];
        return false;
      }
      messages := messages + [msg];
      notify := |messages| == 1;
      if woken.Some? {
        inside := inside[woken.value := Awake(false)];
      }
    }

    /** The first critical section of get_message: a message, or the thread sleeps. */
    method EnterGet(ghost t: Thread) returns (r: Option<Message>)
      requires !callback && t !in inside
      modifies this
      ensures View() == Enter(old(View()), t)
      ensures r == if old(messages) == [] then None else Some(old(messages)[0])
    {
      crowded := crowded || inside != map[];
      if messages == [] {
        inside := inside[t := Asleep];
        return None;
      }
      r := Some(messages[0]);
      taken, messages := taken + [messages[0]], messages[1..];
    }

    /** A woken thread evaluates the predicate again. */
    method Resume(ghost t: Thread, timedOut: bool) returns (r: LookResult)
      requires t in inside && inside[t] == Awake(timedOut)
      modifies this
      ensures View() == LookAgain(old(View()), t)
      ensures r == if old(messages) != [] then Found(old(messages)[0]) else if timedOut then TimeoutError else SleepsOn
    {
      if messages != [] {
        r := Found(messages[0]);
        taken, messages, inside := taken + [messages[0]], messages[1..], inside - {t};
      } else if timedOut {
        r, inside := TimeoutError, inside - {t};
      } else {
        r, inside := SleepsOn, inside[t := Asleep];
      }
    }
  }

  datatype BrokerCall = Subscribe(topic: string, qos: int) | Unsubscribe(topic: string)

  const SECOND := 1_000_000_000

  /** What connect_to_broker meets: return codes (0 is success), clock readings in ns, and the wait. */
  datatype Environment = Environment(
    ret: nat -> int,            // of the k-th connect or reconnect call
    clock: nat -> int,          // the k-th reading
    flagSeen: bool,             // the wait finds the flag set
    waitEnds: (int, int) -> int, // when a wait is over, by its begin and the time it is given
    accepts: string -> bool)    // the broker takes the subscription to a topic

  /** The clock does not run backwards, and every reading but the first two comes after a sleep of a second. */
  ghost predicate ClockRuns(env: Environment) {
    env.clock(0) <= env.clock(1) && forall k: nat | k >= 1 :: env.clock(k) + SECOND <= env.clock(k + 1)
  }

  /** Without a timeout some call succeeds and the flag is set in the end. */
  ghost predicate Succeeds(env: Environment, timeout: Option<nat>) {
    timeout.None? ==> env.flagSeen && exists k: nat :: env.ret(k) == 0
  }

  /**
   * What the library promises of wait_for: it is not over before it begins, nor, without the flag, before
   * its time has passed, which may be negative.
   */
  ghost predicate WaitForKeepsTime(env: Environment) {
    forall begun, time ::
      env.waitEnds(begun, time) >= begun && (!env.flagSeen ==> env.waitEnds(begun, time) >= begun + time)
  }

  datatype GetResult = NoConnection | UnknownTopic | HasCallback | Got(msg: Message) | Waits

  datatype ConnectResult = Connected | AlreadyConnected | NotConnected | TimedOut | Refused(topic: string)

  /** The subscribe calls for these topics, each with the qos of its handle. */
  ghost function Subscribes(order: seq<string>, subs: map<string, SubscriptionHandle>): seq<BrokerCall>
    requires forall f | f in order :: f in subs
  {
    if order == [] then []
    else
      var last := order[|order| - 1];
      Subscribes(order[..|order| - 1], subs) + [Subscribe(last, subs[last].qos)]
  }

  /** The i-th call is about the i-th topic, with the qos of its handle. */
  lemma {:induction false} SubscribesInOrder(order: seq<string>, subs: map<string, SubscriptionHandle>)
    requires forall f | f in order :: f in subs
    ensures |Subscribes(order, subs)| == |order|
    ensures forall i | 0 <= i < |order| :: Subscribes(order, subs)[i] == Subscribe(order[i], subs[order[i]].qos)
  {
    if order == [] {
    } else {
      SubscribesInOrder(order[..|order| - 1], subs);
    }
  }

  lemma SubscribesOneMore(order: seq<string>, f: string, subs: map<string, SubscriptionHandle>)
    requires forall g | g in order :: g in subs
    requires f in subs
    ensures forall g | g in order + [f] :: g in subs
    ensures Subscribes(order + [f], subs) == Subscribes(order, subs) + [Subscribe(f, subs[f].qos)]
  {
    assert (order + [f])[..|order|] == order;
  }

  class Client {
    var subscriptions: map<string, SubscriptionHandle>
    var connected: bool
    ghost var requests: seq<BrokerCall>       // history: calls of subscribe and unsubscribe
    ghost var broker: Connection.State     // the connection machine, run alongside

    /** Every topic has a handle of its own. */
    ghost predicate OwnHandles()
      reads this
    {
      forall f, g | f in subscriptions && g in subscriptions && subscriptions[f] == subscriptions[g] :: f == g
    }

    /** The fields are those of the connection machine. */
    ghost predicate InStep()
      reads this
    {
      broker.keys == subscriptions.Keys && broker.connected == connected && Connection.Inv(broker)
    }

    /** Between calls: while the connection lasts, InStep makes the broker's topics those of the map. */
    ghost predicate Valid()
      reads this
    {
      OwnHandles() && InStep() && broker.user.Outside? && broker.callback.NoCallback?
    }

    constructor ()
      ensures Valid() && subscriptions == map[] && !connected && requests == [] && broker == Connection.INIT
    {
      subscriptions, connected, requests, broker := map[], false, [], Connection.INIT;
    }

    /** Returns false when the subscribe call fails, which the code throws. */
    method AddSubscription(topic: string, qos: int, callback: bool, accepted: bool) returns (ok: bool)
      requires Valid()
      modifies this
      ensures Valid() && connected == old(connected)
      ensures topic in old(subscriptions) ==> subscriptions == old(subscriptions)
      ensures topic !in old(subscriptions) ==>
                topic in subscriptions && fresh(subscriptions[topic]) &&
                subscriptions == old(subscriptions)[topic := subscriptions[topic]] &&
                subscriptions[topic].qos == qos && subscriptions[topic].View() == NewSubscription(callback)
      ensures requests == old(requests) + (if connected then [Subscribe(topic, qos)] else [])
      ensures broker == Connection.AddCall(old(broker), topic, accepted)
      ensures ok <==> !connected || accepted
    {
      Connection.CallsKeepInv(broker, topic, accepted);
      broker := Connection.AddCall(broker, topic, accepted);
      assert Connection.Inv(broker) && broker.keys == subscriptions.Keys + {topic} && broker.connected == connected;
      var handle := new SubscriptionHandle(qos, callback);
      assert forall f | f in subscriptions :: allocated(subscriptions[f]) && subscriptions[f] != handle;
      if topic !in subscriptions {
        subscriptions := subscriptions[topic := handle];
      }
      assert subscriptions.Keys == broker.keys;
      if connected {
        requests := requests + [Subscribe(topic, qos)];
      }
      ok := !connected || accepted;
    }

    method RemoveSubscription(topic: string, accepted: bool) returns (ok: bool)
      requires Valid()
      modifies this
      ensures Valid() && connected == old(connected)
      ensures subscriptions == old(subscriptions) - {topic}
      ensures requests == old(requests) + (if connected then [Unsubscribe(topic)] else [])
      ensures broker == Connection.RemoveCall(old(broker), topic, accepted)
      ensures ok <==> !connected || accepted
    {
      Connection.CallsKeepInv(broker, topic, accepted);
      broker := Connection.RemoveCall(broker, topic, accepted);
      subscriptions := subscriptions - {topic};
      if connected {
        requests := requests + [Unsubscribe(topic)];
      }
      ok := !connected || accepted;
    }

    method OnConnect(rc: int)
      requires Valid() && (rc == 0 ==> !broker.session)
      modifies this`connected, this`broker
      ensures Valid() && connected == (rc == 0 || old(connected))
      ensures rc == 0 ==>
                broker == Connection.Next(Connection.Next(old(broker), Connection.SessionUp), Connection.RunCallback)
      ensures rc != 0 ==> broker == old(broker)
    {
      if rc == 0 {
        Connection.StepKeepsInv(broker, Connection.SessionUp);
        broker := Connection.Next(broker, Connection.SessionUp);
        Connection.StepKeepsInv(broker, Connection.RunCallback);
        broker := Connection.Next(broker, Connection.RunCallback);
        connected := true;
      }
    }

    method OnDisconnect(rc: int)
      requires Valid()
      modifies this`connected, this`broker
      ensures Valid() && !connected
      ensures broker == Connection.Next(Connection.Next(old(broker), Connection.SessionDown), Connection.RunCallback)
    {
      Connection.StepKeepsInv(broker, Connection.SessionDown);
      broker := Connection.Next(broker, Connection.SessionDown);
      Connection.StepKeepsInv(broker, Connection.RunCallback);
      broker := Connection.Next(broker, Connection.RunCallback);
      connected := false;
    }

    /** The handles a message goes to. */
    ghost function Targets(m: Matcher, topic: string): set<SubscriptionHandle>
      reads this
    {
      set f | f in subscriptions && m(f, topic) == Hit :: subscriptions[f]
    }

    ghost predicate AllCompile(m: Matcher, topic: string)
      reads this
    {
      forall f | f in subscriptions :: m(f, topic) != Broken
    }

    /** The first half of on_message, under the subscriptions lock. None is the exception of a bad filter. */
    method Snapshot(m: Matcher, topic: string) returns (matched: Option<seq<SubscriptionHandle>>)
      requires Valid()
      ensures matched.Some? <==> AllCompile(m, topic)
      ensures matched.Some? ==> forall h :: h in matched.value <==> h in Targets(m, topic)
      ensures matched.Some? ==> forall i, j | 0 <= i < j < |matched.value| :: matched.value[i] != matched.value[j]
    {
      var todo := subscriptions.Keys;
      var found: seq<SubscriptionHandle> := [];
      while todo != {}
        invariant todo <= subscriptions.Keys
        invariant forall f | f in subscriptions && f !in todo :: m(f, topic) != Broken
        invariant forall f | f in subscriptions && f !in todo && m(f, topic) == Hit :: subscriptions[f] in found
        invariant forall h | h in found ::
                    exists f :: f in subscriptions && f !in todo && m(f, topic) == Hit && subscriptions[f] == h
        invariant forall i, j | 0 <= i < j < |found| :: found[i] != found[j]
      {
        var f :| f in todo;
        todo := todo - {f};
        var verdict := m(f, topic);
        if verdict == Broken {
          return None;
        }
        if verdict == Hit {
          assert forall g | g in subscriptions && subscriptions[g] == subscriptions[f] :: g == f;
          assert subscriptions[f] !in found;
          found := found + [subscriptions[f]];
        }
      }
      return Some(found);
    }

    /** The second half of on_message, without the lock: one handle after the other, until a callback throws. */
    method Deliver(handles: seq<SubscriptionHandle>, msg: Message, ghost woken: SubscriptionHandle -> Option<Thread>,
                   throwing: set<SubscriptionHandle>)
      returns (ghost reached: set<SubscriptionHandle>, thrown: bool, ghost served: nat)
      requires forall i, j | 0 <= i < j < |handles| :: handles[i] != handles[j]
      requires forall h | h in handles :: MayWake(h.View(), woken(h))
      modifies set h | h in handles
      ensures forall h | h in handles ::
                h.View() ==
                if h in reached then Subscriptions.AddMessage(old(h.View()), msg, woken(h)) else old(h.View())
      // The handles that are reached come first, and only the last of them can have thrown.
      ensures served <= |handles| && reached == set k | 0 <= k < served :: handles[k]
      ensures forall k | 0 <= k < served - 1 :: handles[k] !in throwing
      ensures thrown <==> served > 0 && handles[served - 1] in throwing
      ensures !thrown ==> served == |handles|
    {
      reached := {};
      var i := 0;
      while i < |handles|
        invariant 0 <= i <= |handles|
        invariant reached == set k | 0 <= k < i :: handles[k]
        invariant forall h | h in handles ::
                    h.View() ==
                    if h in reached then Subscriptions.AddMessage(old(h.View()), msg, woken(h)) else old(h.View())
        invariant forall k | 0 <= k < i :: handles[k] !in throwing
      {
        var h := handles[i];
        assert h !in reached;
        var notify := h.AddMessage(msg, woken(h));
        reached := reached + {h};
        i := i + 1;
        if h in throwing {
          return reached, true, i;
        }
      }
      return reached, false, i;
    }

    /**
     * on_message. Each woken(h) is the sleeper that a notify on h would wake; a handle in throwing has a
     * callback that throws. reached are the handles the message was handed to; caught is whether the
     * surrounding catch block saw an exception.
     */
    method OnMessage(m: Matcher, msg: Message, ghost woken: SubscriptionHandle -> Option<Thread>,
                     throwing: set<SubscriptionHandle>)
      returns (ghost reached: set<SubscriptionHandle>, caught: bool)
      requires Valid()
      requires forall f | f in subscriptions :: MayWake(subscriptions[f].View(), woken(subscriptions[f]))
      requires forall h | h in throwing :: h.callback
      modifies subscriptions.Values
      // Each handle that is reached gets the message once; nothing else changes.
      ensures forall h | h in old(subscriptions).Values && h in reached ::
                h.View() == Subscriptions.AddMessage(old(h.View()), msg, woken(h))
      ensures forall h | h in old(subscriptions).Values && h !in reached :: h.View() == old(h.View())
      ensures reached <= old(Targets(m, msg.topic))
      // All matching handles are reached, unless a filter does not compile or a callback throws.
      ensures old(AllCompile(m, msg.topic)) && old(Targets(m, msg.topic)) !! throwing ==>
                reached == old(Targets(m, msg.topic))
      ensures !old(AllCompile(m, msg.topic)) ==> reached == {}
      ensures old(AllCompile(m, msg.topic)) && reached != old(Targets(m, msg.topic)) ==>
                exists h :: h in reached && h in throwing
      ensures forall g, h | g in reached && h in reached && g in throwing && h in throwing :: g == h
      ensures caught <==> !old(AllCompile(m, msg.topic)) || old(Targets(m, msg.topic)) == {} ||
                          exists h :: h in reached && h in throwing
    {
      reached := {};
      var matched := Snapshot(m, msg.topic);
      if matched.None? {
        return {}, true;
      }
      if matched.value == [] {
        assert Targets(m, msg.topic) == {} by {
          assert forall h :: h in Targets(m, msg.topic) ==> h in matched.value;
        }
        return {}, true;  // "No matching subscriptions."
      }
      ghost var targets := Targets(m, msg.topic);
      assert forall h :: h in matched.value <==> h in targets;
      ghost var served;
      reached, caught, served := Deliver(matched.value, msg, woken, throwing);
      assert matched.value[0] in targets;
    }

    /** get_message up to its first wait. */
    method BeginGet(topic: string, ghost t: Thread) returns (r: GetResult)
      requires Valid()
      requires topic in subscriptions ==> t !in subscriptions[topic].inside
      modifies subscriptions.Values
      ensures Valid()
      ensures r.NoConnection? <==> !connected
      ensures r.UnknownTopic? <==> connected && topic !in subscriptions
      ensures r.HasCallback? <==> connected && topic in subscriptions && subscriptions[topic].callback
      ensures forall f | f in subscriptions ::
                subscriptions[f].View() ==
                if f == topic && (r.Got? || r.Waits?) then Enter(old(subscriptions[f].View()), t)
                else old(subscriptions[f].View())
      ensures r.Got? ==>
                topic in subscriptions && old(subscriptions[topic].messages) == [r.msg] + subscriptions[topic].messages
      ensures r.Waits? ==> topic in subscriptions && old(subscriptions[topic].messages) == []
    {
      if !connected {
        return NoConnection;
      }
      if topic !in subscriptions {
        return UnknownTopic;
      }
      var handle := subscriptions[topic];
      if handle.callback {
        return HasCallback;
      }
      var msg := handle.EnterGet(t);
      assert handle.View() == Enter(old(handle.View()), t);
      r := if msg.Some? then Got(msg.value) else Waits;
    }

    /** resubscribe: every topic of the map once, with the qos of its handle, until one is refused. */
    method Resubscribe(env: Environment) returns (r: ConnectResult, ghost order: seq<string>)
      requires InStep() && (connected ==> broker.user == Connection.Resubscription(subscriptions.Keys))
      modifies this`requests, this`broker
      ensures r.NotConnected? <==> !connected
      ensures r.NotConnected? ==> order == [] && broker == old(broker)
      ensures InStep() && (connected ==> broker.user.Outside?) && broker.callback == old(broker.callback)
      ensures connected ==> (broker.lasting <==> r.Connected? && old(broker.lasting))
      ensures forall f | f in order :: f in subscriptions
      ensures requests == old(requests) + Subscribes(order, subscriptions)
      ensures forall i, j | 0 <= i < j < |order| :: order[i] != order[j]
      ensures r.Connected? || r.Refused? || r.NotConnected?
      ensures r.Connected? ==> forall f | f in subscriptions :: f in order && env.accepts(f)
      ensures r.Refused? ==> r.topic in subscriptions
      ensures r.Refused? ==> order != [] && order[|order| - 1] == r.topic && !env.accepts(r.topic)
      ensures r.Refused? ==> forall f | f in order && f != r.topic :: env.accepts(f)
    {
      if !connected {
        return NotConnected, [];
      }
      var todo := subscriptions.Keys;
      order := [];
      while todo != {}
        invariant InStep() && broker.user == Connection.Resubscription(todo)
        invariant broker.callback == old(broker.callback) && broker.lasting == old(broker.lasting)
        invariant todo <= subscriptions.Keys
        invariant forall f :: f in order <==> f in subscriptions && f !in todo
        invariant forall f | f in order :: env.accepts(f)
        invariant forall i, j | 0 <= i < j < |order| :: order[i] != order[j]
        invariant requests == old(requests) + Subscribes(order, subscriptions)
      {
        var f :| f in todo;
        assert f !in order && (forall g | g in order :: g in subscriptions);
        broker := Resubscribed(broker, f, env.accepts(f));
        todo := todo - {f};
        requests := requests + [Subscribe(f, subscriptions[f].qos)];
        SubscribesOneMore(order, f, subscriptions);
        order := order + [f];
        if !env.accepts(f) {
          return Refused(f), order;
        }
      }
      return Connected, order;
    }

    /** The retry loop of connect_to_broker: ok is false when it throws the timeout error. */
    method Retry(timeout: Option<nat>, env: Environment) returns (ok: bool, attempts: nat)
      requires InStep() && broker.user == Connection.Connecting(false) && broker.callback.NoCallback?
      requires ClockRuns(env) && Succeeds(env, timeout)
      modifies this`broker
      ensures InStep() && broker.callback.NoCallback? && !broker.session
      ensures broker.user == if ok then Connection.Connecting(true) else Connection.Outside
      ensures attempts > 0 && forall k: nat | k + 1 < attempts :: env.ret(k) != 0
      ensures timeout.Some? ==> attempts <= timeout.value / SECOND + 2
      ensures ok ==> env.ret(attempts - 1) == 0
      ensures !ok ==> timeout.Some? && env.ret(attempts - 1) != 0 && env.clock(attempts) > env.clock(0) + timeout.value
      // It gives up at the first reading past the timeout.
      ensures timeout.Some? ==> forall k: nat | 0 < k < attempts :: env.clock(k) <= env.clock(0) + timeout.value
    {
      var start := env.clock(0);
      var ret := env.ret(0);
      attempts := 1;
      broker := Request(broker, ret == 0);
      ghost var successAt: nat := if timeout.None? then SomeSuccess(env) else 0;
      while ret != 0
        invariant InStep() && broker.user == Connection.Connecting(ret == 0) && broker.callback.NoCallback?
        invariant !broker.session
        invariant attempts >= 1 && ret == env.ret(attempts - 1)
        invariant forall k: nat | k + 1 < attempts :: env.ret(k) != 0
        invariant env.clock(attempts) >= start + (attempts - 1) * SECOND
        invariant timeout.Some? ==> forall k: nat | 0 < k < attempts :: env.clock(k) <= start + timeout.value
        invariant timeout.Some? && attempts >= 2 ==> (attempts - 2) * SECOND <= timeout.value
        decreases if timeout.Some? then timeout.value / SECOND + 2 - attempts else successAt - attempts + 1
      {
        if timeout.Some? && env.clock(attempts) - start > timeout.value {
          AttemptsBounded(attempts, timeout.value);
          broker := Connection.Next(broker, Connection.GiveUp);
          return false, attempts;
        }
        // Here the code sleeps for a second.
        ret := env.ret(attempts);
        broker := Request(broker, ret == 0);
        attempts := attempts + 1;
        AttemptsBounded(attempts, if timeout.Some? then timeout.value else (attempts - 2) * SECOND);
      }
      if timeout.Some? {
        AttemptsBounded(attempts, timeout.value);
      }
      return true, attempts;
    }

    /**
     * connect_to_broker with a timeout in ns, or none. attempts counts the connect and reconnect calls,
     * order lists the topics that were resubscribed, decided is when the retries or the wait were over.
     */
    method ConnectToBroker(timeout: Option<nat>, env: Environment)
      returns (r: ConnectResult, attempts: nat, ghost order: seq<string>, ghost decided: int)
      requires Valid() && ClockRuns(env) && Succeeds(env, timeout) && WaitForKeepsTime(env)
      modifies this`connected, this`requests, this`broker
      ensures Valid()
      ensures r.AlreadyConnected? <==> old(connected)
      ensures r.AlreadyConnected? ==> attempts == 0 && connected
      // Every call but the last one fails, and the retries stop soon after the timeout.
      ensures forall k: nat | k + 1 < attempts :: env.ret(k) != 0
      ensures timeout.Some? ==> attempts <= timeout.value / SECOND + 2
      // A timeout error is never early.
      ensures r.TimedOut? ==> timeout.Some? && attempts > 0 && decided >= env.clock(0) + timeout.value
      // The retries are over at a reading; the wait gets what is left of the timeout, which may be negative.
      ensures attempts > 0 && env.ret(attempts - 1) != 0 ==> decided == env.clock(attempts)
      ensures attempts > 0 && env.ret(attempts - 1) == 0 && timeout.Some? ==>
                decided == env.waitEnds(env.clock(attempts), timeout.value - (env.clock(attempts) - env.clock(0)))
      // Which of the outcomes it is: the last call failed or the flag was not seen, a topic was refused, or none.
      ensures !old(connected) ==> attempts > 0 && (r.TimedOut? <==> env.ret(attempts - 1) != 0 || !env.flagSeen)
      ensures r.Refused? ==> r.topic in subscriptions && !env.accepts(r.topic)
      ensures r.Connected? <==>
                && !old(connected) && env.ret(attempts - 1) == 0 && env.flagSeen
                && forall f | f in subscriptions :: env.accepts(f)
      ensures !r.NotConnected?
      // It retries until a call succeeds or a reading is past the timeout.
      ensures timeout.Some? ==> forall k: nat | 0 < k < attempts :: env.clock(k) <= env.clock(0) + timeout.value
      ensures attempts > 0 && env.ret(attempts - 1) != 0 ==>
                timeout.Some? && env.clock(attempts) > env.clock(0) + timeout.value
      ensures r.Connected? || r.Refused? ==> attempts > 0 && env.ret(attempts - 1) == 0 && env.flagSeen
      ensures connected <==> old(connected) || r.Connected? || r.Refused?
      // Normal return: the flag was seen before every stored topic was subscribed, once.
      ensures forall f | f in order :: f in subscriptions
      ensures requests == old(requests) + Subscribes(order, subscriptions)
      ensures forall i, j | 0 <= i < j < |order| :: order[i] != order[j]
      ensures r.AlreadyConnected? || r.TimedOut? ==> order == []
      ensures r.Connected? ==> forall f | f in subscriptions :: f in order && env.accepts(f)
      ensures r.Connected? ==> broker.lasting && broker.ledger == subscriptions.Keys
    {
      order := [];
      if connected {
        return AlreadyConnected, 0, [], env.clock(0);
      }
      broker := Connection.Next(broker, Connection.Connect);
      var ok;
      ok, attempts := Retry(timeout, env);
      decided := env.clock(attempts);
      if !ok {
        return TimedOut, attempts, [], decided;
      }
      if timeout.Some? {
        var now := env.clock(attempts);
        var timeLeft := timeout.value - (now - env.clock(0));
        decided := env.waitEnds(now, timeLeft);
        if !env.flagSeen {
          broker := Connection.Next(broker, Connection.GiveUp);
          return TimedOut, attempts, [], decided;
        }
      }
      // By the loop thread, before the wait returns.
      broker := SessionSeen(broker);
      connected := true;
      r, order := Resubscribe(env);
    }
  }

  /** A connect or reconnect call. */
  ghost function Request(s: Connection.State, accepted: bool): (s': Connection.State)
    requires Connection.Inv(s) && s.user == Connection.Connecting(false)
    ensures Connection.Inv(s') && s'.user == Connection.Connecting(accepted)
    ensures !s'.session && s'.keys == s.keys && s'.connected == s.connected && s'.callback == s.callback
  {
    Connection.Next(s, Connection.ConnectCall(accepted))
  }

  /** One topic of a resubscription. */
  ghost function Resubscribed(s: Connection.State, f: string, accepted: bool): (s': Connection.State)
    requires Connection.Inv(s) && s.user.Resubscribing? && f in s.user.todo
    ensures Connection.Inv(s') && s'.keys == s.keys && s'.connected == s.connected && s'.callback == s.callback
    ensures s'.user == (if accepted then Connection.Resubscription(s.user.todo - {f}) else Connection.Outside)
    ensures s'.lasting <==> s.lasting && accepted
  {
    Connection.StepKeepsInv(s, Connection.Resubscribe(f, accepted));
    Connection.Next(s, Connection.Resubscribe(f, accepted))
  }

  /** The broker accepts the connection, on_connect sets the flag, the wait returns. */
  ghost function SessionSeen(s: Connection.State): (s': Connection.State)
    requires Connection.Inv(s) && s.user == Connection.Connecting(true) && s.callback.NoCallback? && !s.session
    ensures Connection.Inv(s') && s'.user == Connection.Resubscription(s.keys) && s'.keys == s.keys
    ensures s'.connected && s'.lasting && s'.callback.NoCallback?
  {
    var up := Connection.Next(Connection.Next(s, Connection.SessionUp), Connection.RunCallback);
    var s' := Connection.Next(up, Connection.Observe);
    Connection.StepKeepsInv(up, Connection.Observe);
    s'
  }

  ghost function SomeSuccess(env: Environment): (k: nat)
    requires exists k: nat :: env.ret(k) == 0
    ensures env.ret(k) == 0
  {
    var k: nat :| env.ret(k) == 0;
    k
  }

  lemma AttemptsBounded(attempts: nat, timeout: nat)
    requires attempts >= 1 && (attempts >= 2 ==> (attempts - 2) * SECOND <= timeout)
    ensures attempts <= timeout / SECOND + 2
  {
  }
}
