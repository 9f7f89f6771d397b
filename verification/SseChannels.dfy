/**
 `LatestRateSseService` and the subscribers that the controller creates. An observable is handed
 out for a channel, subscribed once, and finalised once; the finaliser cleans the channel up.
*/
module SseChannels {
  import opened Options

  /** The two maps of the service. A subject is named by a number, never used twice. */
  datatype Channels = Channels(subjects: map<string, nat>, counts: map<string, nat>, nextSubject: nat)

  function CountOf(c: Channels, name: string): nat {
    if name in c.counts then c.counts[name] else 0
  }

  function Obtain(c: Channels, name: string): Channels {
    var c1 :=
      if name in c.subjects then c
      else c.(subjects := c.subjects[name := c.nextSubject], nextSubject := c.nextSubject + 1);
    c1.(counts := c.counts[name := CountOf(c, name) + 1])
  }

  function CleanUp(c: Channels, name: string): Channels {
    if CountOf(c, name) <= 1 then c.(subjects := c.subjects - {name}, counts := c.counts - {name})
    else c.(counts := c.counts[name := CountOf(c, name) - 1])
  }

  class LatestRateSseService {
    var subjects: map<string, nat>
    var subscriberCounts: map<string, nat>
    var nextSubject: nat

    constructor ()
      ensures View() == Channels(map[], map[], 0)
    {
      subjects, subscriberCounts, nextSubject := map[], map[], 0;
    }

    function View(): Channels
      reads this
    {
      Channels(subjects, subscriberCounts, nextSubject)
    }

    method GetLastRateObservable(baseCurrency: string) returns (subject: nat)
      modifies this
      ensures View() == Obtain(old(View()), "latest-rate:" + baseCurrency)
      ensures "latest-rate:" + baseCurrency in subjects && subject == subjects["latest-rate:" + baseCurrency]
    {
      var subjectName := "latest-rate:" + baseCurrency;
      if subjectName !in subjects {
        subjects := subjects[subjectName := nextSubject];
        nextSubject := nextSubject + 1;
      }
      var currentSubjectCount := if subjectName in subscriberCounts then subscriberCounts[subjectName] else 0;
      subscriberCounts := subscriberCounts[subjectName := currentSubjectCount + 1];
      return subjects[subjectName];
    }

    /** The subject that the event goes to, if the channel exists. */
    method EmitEvent(baseCurrency: string) returns (subject: Option<nat>)
      ensures var name := "latest-rate:" + baseCurrency;
        subject == if name in subjects then Some(subjects[name]) else None
    {
      var subjectName := "latest-rate:" + baseCurrency;
      subject := if subjectName in subjects then Some(subjects[subjectName]) else None;
    }

    /** The subject that is completed, if the last subscriber left. */
    method CleanUpChannel(baseCurrency: string) returns (completed: Option<nat>)
      modifies this
      ensures View() == CleanUp(old(View()), "latest-rate:" + baseCurrency)
      ensures var name := "latest-rate:" + baseCurrency; var was := old(subjects);
        completed == if CountOf(old(View()), name) <= 1 && name in was then Some(was[name]) else None
    {
      var subjectName := "latest-rate:" + baseCurrency;
      completed := None;
      var currentCount: int := if subjectName in subscriberCounts then subscriberCounts[subjectName] else 0;
      var newCount := if currentCount - 1 < 0 then 0 else currentCount - 1;
      if newCount == 0 {
        if subjectName in subjects {
          completed := Some(subjects[subjectName]);
          subjects := subjects - {subjectName};
        }
        subscriberCounts := subscriberCounts - {subjectName};
        return;
      }
      subscriberCounts := subscriberCounts[subjectName := newCount];
    }
  }

  // ---------------------------------------------------------------- runs

  /** An observable that was handed out and is not finalised yet. */
  datatype Handle = Handle(channel: string, subject: nat, subscribed: bool)

  datatype State = State(channels: Channels, handles: map<nat, Handle>, nextHandle: nat)

  datatype Step = Open(channel: string) | Subscribe(h: nat) | Finalize(h: nat)

  predicate Enabled(s: State, step: Step) {
    match step
    case Open(_) => true
    case Subscribe(h) => h in s.handles && !s.handles[h].subscribed
    case Finalize(h) => h in s.handles && s.handles[h].subscribed
  }

  function Apply(s: State, step: Step): State
    requires Enabled(s, step)
  {
    match step
    case Open(channel) =>
      var c := Obtain(s.channels, channel);
      State(c, s.handles[s.nextHandle := Handle(channel, c.subjects[channel], false)], s.nextHandle + 1)
    case Subscribe(h) => s.(handles := s.handles[h := s.handles[h].(subscribed := true)])
    case Finalize(h) => s.(channels := CleanUp(s.channels, s.handles[h].channel), handles := s.handles - {h})
  }

  predicate ValidRun(s: State, steps: seq<Step>)
    decreases |steps|
  {
    steps == [] || (Enabled(s, steps[0]) && ValidRun(Apply(s, steps[0]), steps[1..]))
  }

  function Run(s: State, steps: seq<Step>): State
    requires ValidRun(s, steps)
    decreases |steps|
  {
    if steps == [] then s else Run(Apply(s, steps[0]), steps[1..])
  }

  const START := State(Channels(map[], map[], 0), map[], 0)

  function HandlesOf(s: State, channel: string): set<nat> {
    set h | h in s.handles && s.handles[h].channel == channel
  }

  /** Whom the next event of a channel reaches: the subscribers of the subject in the map. */
  function Receivers(s: State, channel: string): set<nat> {
    if channel !in s.channels.subjects then {}
    else set h | h in s.handles && s.handles[h].subscribed && s.handles[h].subject == s.channels.subjects[channel]
  }

  ghost predicate ChannelOk(s: State, channel: string) {
    var n := |HandlesOf(s, channel)|;
    && CountOf(s.channels, channel) == n
    && (channel in s.channels.subjects <==> n > 0)
    && (channel in s.channels.counts <==> n > 0)
  }

  ghost predicate Counted(s: State) {
    && (forall channel {:trigger ChannelOk(s, channel)} :: ChannelOk(s, channel))
    && (forall h :: h in s.handles ==>
          && h < s.nextHandle
          && s.handles[h].channel in s.channels.subjects
          && s.channels.subjects[s.handles[h].channel] == s.handles[h].subject)
    && (forall a :: a in s.channels.subjects ==> s.channels.subjects[a] < s.channels.nextSubject)
    && (forall a, b :: a in s.channels.subjects && b in s.channels.subjects && a != b ==>
        s.channels.subjects[a] != s.channels.subjects[b])
  }

  lemma OpenKeeps(s: State, channel: string)
    requires Counted(s)
    ensures Counted(Apply(s, Open(channel)))
  {
    var s' := Apply(s, Open(channel));
    assert ChannelOk(s, channel);
    assert HandlesOf(s', channel) == HandlesOf(s, channel) + {s.nextHandle};
    forall other ensures ChannelOk(s', other) {
      assert ChannelOk(s, other);
      if other != channel { assert HandlesOf(s', other) == HandlesOf(s, other); }
    }
    if HandlesOf(s, channel) == {} {
      forall h | h in s.handles ensures s.handles[h].channel != channel {
        assert h !in HandlesOf(s, channel);
      }
    }
  }

  lemma FinalizeKeeps(s: State, h: nat)
    requires Counted(s) && Enabled(s, Finalize(h))
    ensures Counted(Apply(s, Finalize(h)))
  {
    var s', channel := Apply(s, Finalize(h)), s.handles[h].channel;
    assert ChannelOk(s, channel);
    assert HandlesOf(s', channel) == HandlesOf(s, channel) - {h} && h in HandlesOf(s, channel);
    forall other ensures ChannelOk(s', other) {
      assert ChannelOk(s, other);
      if other != channel { assert HandlesOf(s', other) == HandlesOf(s, other); }
    }
    forall k | k in s'.handles ensures s'.handles[k].channel in s'.channels.subjects {
      if s'.handles[k].channel == channel { assert k in HandlesOf(s', channel) && ChannelOk(s', channel); }
    }
  }

  lemma SubscribeKeeps(s: State, h: nat)
    requires Counted(s) && Enabled(s, Subscribe(h))
    ensures Counted(Apply(s, Subscribe(h)))
  {
    var s' := Apply(s, Subscribe(h));
    forall other ensures ChannelOk(s', other) {
      assert ChannelOk(s, other);
      assert HandlesOf(s', other) == HandlesOf(s, other);
    }
  }

  lemma {:induction false} RunKeeps(s: State, steps: seq<Step>)
    requires Counted(s) && ValidRun(s, steps)
    ensures Counted(Run(s, steps))
    decreases |steps|
  {
    if steps != [] {
      match steps[0] {
        case Open(channel) => OpenKeeps(s, channel);
        case Subscribe(h) => SubscribeKeeps(s, h);
        case Finalize(h) => FinalizeKeeps(s, h);
      }
      RunKeeps(Apply(s, steps[0]), steps[1..]);
    }
  }

  lemma StartCounted()
    ensures Counted(START)
  {
    forall channel ensures ChannelOk(START, channel) {
      assert HandlesOf(START, channel) == {};
    }
  }

  /**
   Over every run a channel exists exactly while somebody holds an observable of it, its count is
   their number, all of them hold the subject in the map, and an event of the channel reaches its
   subscribers and nobody else.
  */
  lemma ChannelsAreCounted(steps: seq<Step>, channel: string)
    requires ValidRun(START, steps)
    ensures var s := Run(START, steps);
      && (channel in s.channels.subjects <==> HandlesOf(s, channel) != {})
      && CountOf(s.channels, channel) == |HandlesOf(s, channel)|
      && (forall h :: h in HandlesOf(s, channel) ==>
            channel in s.channels.subjects && s.handles[h].subject == s.channels.subjects[channel])
      && Receivers(s, channel) == set h | h in HandlesOf(s, channel) && s.handles[h].subscribed
  {
    StartCounted();
    RunKeeps(START, steps);
    var s := Run(START, steps);
    assert ChannelOk(s, channel);
    forall h | h in s.handles ensures s.handles[h].channel in s.channels.subjects {
    }
    if HandlesOf(s, channel) != {} {
      var h :| h in HandlesOf(s, channel);
    }
  }

  /** The subject that a clean-up completes has no other observer, so completing it notifies nobody. */
  lemma CompletionIsUnobserved(steps: seq<Step>, h: nat)
    requires ValidRun(START, steps) && Enabled(Run(START, steps), Finalize(h))
    ensures var s := Run(START, steps); var s' := Apply(s, Finalize(h));
      s.handles[h].channel !in s'.channels.subjects ==>
        forall k :: k in s'.handles ==> s'.handles[k].subject != s.handles[h].subject
  {
    StartCounted();
    RunKeeps(START, steps);
    var s := Run(START, steps);
    FinalizeKeeps(s, h);
  }
}
