/** Queue calls as the grab coordinator receives them, and each caller's view
    of a log of such calls. The log itself is the coordinator's ghost `calls`
    field (module Grabbing); the queue and its arbitration are not part of
    this model. */
module CallLog {
  import opened Readiness

  /** One queue call: who made it and which notice it was. */
  datatype Call = Call(who: object, notice: Notice)

  /** The notice `c` contributes to `who`'s view: its own if `who` made it. */
  function NoticeOf(c: Call, who: object): seq<Notice> {
    if c.who == who then [c.notice] else []
  }

  /** The notices `who` sent, in order. */
  function NoticesFor(calls: seq<Call>, who: object): seq<Notice> {
    if calls == [] then [] else NoticeOf(calls[0], who) + NoticesFor(calls[1..], who)
  }

  /** Filtering the log distributes over appending to it. */
  lemma {:induction false} NoticesForAppend(a: seq<Call>, b: seq<Call>, who: object)
    ensures NoticesFor(a + b, who) == NoticesFor(a, who) + NoticesFor(b, who)
  {
    if a == [] {
      assert a + b == b;
    } else {
      assert (a + b)[0] == a[0];
      assert (a + b)[1..] == a[1..] + b;
      NoticesForAppend(a[1..], b, who);
    }
  }

  /** A call appended to the log adds its notice to its caller's view and to
      nobody else's. */
  lemma NoticesForSnoc(calls: seq<Call>, c: Call, who: object)
    ensures NoticesFor(calls + [c], who)
         == NoticesFor(calls, who) + NoticeOf(c, who)
  {
    NoticesForAppend(calls, [c], who);
    assert [c][1..] == [];
  }

  /** The log entries `who` adds when it sends the notices `ns`, in order. */
  function CallsOf(who: object, ns: seq<Notice>): seq<Call> {
    if ns == [] then [] else [Call(who, ns[0])] + CallsOf(who, ns[1..])
  }

  /** Sending two runs of notices logs the calls of the first, then those of
      the second. */
  lemma {:induction false} CallsOfAppend(who: object, a: seq<Notice>, b: seq<Notice>)
    ensures CallsOf(who, a + b) == CallsOf(who, a) + CallsOf(who, b)
  {
    if a == [] {
      assert a + b == b;
    } else {
      assert (a + b)[0] == a[0];
      assert (a + b)[1..] == a[1..] + b;
      CallsOfAppend(who, a[1..], b);
    }
  }

  /** Logging two runs of notices one after the other gives the same log as
      logging them together. */
  lemma LogInTwoParts(calls: seq<Call>, who: object, a: seq<Notice>, b: seq<Notice>)
    ensures (calls + CallsOf(who, a)) + CallsOf(who, b) == calls + CallsOf(who, a + b)
  {
    CallsOfAppend(who, a, b);
  }

  /** The sender's view of the calls it made gives back exactly its notices,
      and nobody else's view gains anything from them. */
  lemma {:induction false} CallsOfViews(who: object, ns: seq<Notice>, other: object)
    ensures NoticesFor(CallsOf(who, ns), who) == ns
    ensures other != who ==> NoticesFor(CallsOf(who, ns), other) == []
  {
    if ns != [] {
      var cs := CallsOf(who, ns);
      assert cs[0] == Call(who, ns[0]);
      assert cs[1..] == CallsOf(who, ns[1..]);
      CallsOfViews(who, ns[1..], other);
      assert ns == [ns[0]] + ns[1..];
    }
  }

  /** Logging `who`'s notices after `calls` extends `who`'s view by exactly
      those notices and leaves every other object's view as it was. */
  lemma LoggedViews(calls: seq<Call>, who: object, ns: seq<Notice>, other: object)
    ensures NoticesFor(calls + CallsOf(who, ns), who) == NoticesFor(calls, who) + ns
    ensures other != who ==> NoticesFor(calls + CallsOf(who, ns), other) == NoticesFor(calls, other)
  {
    NoticesForAppend(calls, CallsOf(who, ns), who);
    NoticesForAppend(calls, CallsOf(who, ns), other);
    CallsOfViews(who, ns, other);
    assert NoticesFor(calls, other) + [] == NoticesFor(calls, other);
  }

  /** An object that made no call has no notices. */
  lemma {:induction false} NoticesForAbsent(calls: seq<Call>, who: object)
    requires forall i :: 0 <= i < |calls| ==> calls[i].who != who
    ensures NoticesFor(calls, who) == []
  {
    if calls != [] {
      NoticesForAbsent(calls[1..], who);
    }
  }
}
