/**
 * One subscription handle as the threads see it: a queue of messages, and for every thread
 * inside get_message whether it sleeps on the condition variable or is about to look again.
 * Each function is one critical section of the queue's mutex.
 */
module Subscriptions {
  import opened Results

  type Thread = nat

  datatype Message = Message(topic: string, payload: string)

  /** A thread inside get_message: asleep, or woken (by a notify, spuriously or by its timeout). */
  datatype Phase = Asleep | Awake(timedOut: bool)

  datatype Subscription = Subscription(
    callback: bool,
    queue: seq<Message>,
    taken: seq<Message>,          // history: returned by get_message, or handed to the callback
    inside: map<Thread, Phase>,
    crowded: bool                 // history: a thread entered while another was inside
  )

  function NewSubscription(callback: bool): Subscription {
    Subscription(callback, [], [], map[], false)
  }

  /** All messages this handle was ever given, in order. */
  function Received(s: Subscription): seq<Message> { s.taken + s.queue }

  predicate Sleeps(s: Subscription, t: Thread) { t in s.inside && s.inside[t].Asleep? }

  /** notify_one runs only when the queue has just become non-empty, and then wakes a sleeper if there is one. */
  ghost predicate MayWake(s: Subscription, woken: Option<Thread>) {
    if !s.callback && s.queue == [] && exists t :: Sleeps(s, t)
    then woken.Some? && Sleeps(s, woken.value)
    else woken.None?
  }

  function AddMessage(s: Subscription, m: Message, woken: Option<Thread>): Subscription {
    if s.callback then s.(taken := s.taken + [m])
    else s.(queue := s.queue + [m],
            inside := if woken.Some? then s.inside[woken.value := Awake(false)] else s.inside)
  }

  function Take(s: Subscription): Subscription
    requires s.queue != []
  {
    s.(queue := s.queue[1..], taken := s.taken + [s.queue[0]])
  }

  /** The thread calls get_message: it takes the front message or goes to sleep. */
  function Enter(s: Subscription, t: Thread): Subscription {
    var s' := s.(crowded := s.crowded || s.inside != map[]);
    if s.queue != [] then Take(s') else s'.(inside := s.inside[t := Asleep])
  }

  /** A sleeper wakes up without being notified. */
  function WakeUp(s: Subscription, t: Thread, timedOut: bool): Subscription {
    s.(inside := s.inside[t := Awake(timedOut)])
  }

  /** A woken thread has the mutex again: it takes a message, gives up after its timeout, or sleeps on. */
  function LookAgain(s: Subscription, t: Thread): Subscription
    requires t in s.inside && s.inside[t].Awake?
  {
    if s.queue != [] then Take(s).(inside := s.inside - {t})
    else if s.inside[t].timedOut then s.(inside := s.inside - {t})
    else s.(inside := s.inside[t := Asleep])
  }

  // ---- wake-ups -----------------------------------------------------------------

  /** Nobody sleeps on a message. */
  ghost predicate NoLostWakeUp(s: Subscription) {
    forall t | Sleeps(s, t) :: s.queue == []
  }

  /** At most one thread is inside, and it does not sleep on a message. */
  ghost predicate Orderly(s: Subscription) {
    && (forall t, u | t in s.inside && u in s.inside :: t == u)
    && NoLostWakeUp(s)
    && (s.callback ==> s.queue == [])
  }

  /** What every handle keeps: the order above unless threads crowded it. */
  ghost predicate Sound(s: Subscription) {
    && (s.callback ==> s.queue == [] && s.inside == map[])
    && (!s.crowded ==> Orderly(s))
  }

  lemma AddMessageIsSound(s: Subscription, m: Message, woken: Option<Thread>)
    requires Sound(s) && MayWake(s, woken)
    ensures Sound(AddMessage(s, m, woken))
    ensures Received(AddMessage(s, m, woken)) == Received(s) + [m]
  {
    assert forall t :: Sleeps(AddMessage(s, m, woken), t) ==> Sleeps(s, t);
    assert s.taken + (s.queue + [m]) == s.taken + s.queue + [m];
  }

  lemma TakingKeepsReceived(s: Subscription)
    requires s.queue != []
    ensures Received(Take(s)) == Received(s)
  {
    assert s.queue == [s.queue[0]] + s.queue[1..];
  }

  lemma EnterIsSound(s: Subscription, t: Thread)
    requires Sound(s) && !s.callback && t !in s.inside
    ensures Sound(Enter(s, t)) && Received(Enter(s, t)) == Received(s)
  {
    if s.queue != [] {
      TakingKeepsReceived(s);
      assert !Enter(s, t).crowded ==> s.inside == map[];
    }
  }

  lemma WakeUpIsSound(s: Subscription, t: Thread, timedOut: bool)
    requires Sound(s) && Sleeps(s, t)
    ensures Sound(WakeUp(s, t, timedOut)) && Received(WakeUp(s, t, timedOut)) == Received(s)
  {
    assert forall u | Sleeps(WakeUp(s, t, timedOut), u) :: Sleeps(s, u);
  }

  lemma LookAgainIsSound(s: Subscription, t: Thread)
    requires Sound(s) && t in s.inside && s.inside[t].Awake?
    ensures Sound(LookAgain(s, t)) && Received(LookAgain(s, t)) == Received(s)
  {
    if s.queue != [] {
      TakingKeepsReceived(s);
    }
  }
}
