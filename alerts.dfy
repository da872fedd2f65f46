/**
 The alert aggregator of the hot-tub monitor: it keeps the triggered
 evaluations of every polling cycle in a rolling history of at most 100
 alerts, oldest dropped first, and shows the five most recent ones, newest
 first.
 */
module Alerts {
  import opened Sensors

  /** Capacity of the rolling history. */
  const HistoryLimit: nat := 100

  /** Number of alerts the display shows. */
  const DisplayCount: nat := 5

  datatype Severity = High | Low

  /** One alert of the history. */
  datatype Alert = Alert(sensor: string, message: Message, severity: Severity)

  /** `s` contains `t` as a contiguous substring (Python's `t in s`), searched from the front. */
  predicate Contains(s: string, t: string)
    ensures Contains(s, t) ==> |t| <= |s|
    decreases |s|
  {
    |t| <= |s| && (s[..|t|] == t || Contains(s[1..], t))
  }

  /** `t` occurs in `s` starting at index `i`. */
  predicate OccursAt(s: string, t: string, i: nat) {
    i + |t| <= |s| && s[i..i + |t|] == t
  }

  /** The front-to-back search finds `t` exactly when `t` occurs somewhere in `s`. */
  lemma {:induction false} ContainsOccurs(s: string, t: string)
    ensures Contains(s, t) <==> exists i: nat :: OccursAt(s, t, i)
    decreases |s|
  {
    if |t| <= |s| && s[..|t|] != t {
      if |s| > 0 {
        ContainsOccurs(s[1..], t);
        if Contains(s[1..], t) {
          var i: nat :| OccursAt(s[1..], t, i);
          assert s[i + 1..i + 1 + |t|] == s[1..][i..i + |t|];
          assert OccursAt(s, t, i + 1);
        }
        if exists i: nat :: OccursAt(s, t, i) {
          var i: nat :| OccursAt(s, t, i);
          assert i != 0;
          assert s[1..][i - 1..i - 1 + |t|] == s[i..i + |t|];
          assert OccursAt(s[1..], t, i - 1);
        }
      }
    } else if |t| <= |s| {
      assert OccursAt(s, t, 0);
    }
  }

  /** The verdict phrase the evaluator writes into a message. */
  function Phrase(k: Kind): string {
    match k
    case TooLow => "too low"
    case TooHigh => "too high"
    case Normal => "normal"
  }

  /** Of the three verdict phrases, only the "too high" one contains "too high". */
  lemma PhraseContainsTooHigh(k: Kind)
    ensures Contains(Phrase(k), "too high") <==> k == TooHigh
  {
    if k == TooHigh {
      assert Phrase(k)[..|"too high"|] == "too high";
    }
  }

  /** Severity is high exactly when the message says "too high", low otherwise. */
  function SeverityOf(m: Message): (sev: Severity)
    ensures sev == High <==> m.kind == TooHigh
  {
    PhraseContainsTooHigh(m.kind);
    if Contains(Phrase(m.kind), "too high") then High else Low
  }

  /** The alert recorded for a triggered evaluation. */
  function ToAlert(e: Evaluation): (a: Alert)
    ensures a.sensor == e.sensor && a.message == e.message
    ensures a.severity == High <==> e.message.kind == TooHigh
  {
    Alert(e.sensor, e.message, SeverityOf(e.message))
  }

  /** The alerts of the triggered entries of `es`, in input order. */
  function Triggered(es: seq<Evaluation>): (r: seq<Alert>)
    ensures |r| <= |es|
  {
    if es == [] then []
    else
      var last := es[|es| - 1];
      Triggered(es[..|es| - 1]) + (if last.triggered then [ToAlert(last)] else [])
  }

  /** The last `n` elements of `s` (all of `s` when it is shorter), in order. */
  function Keep<T>(s: seq<T>, n: nat): (r: seq<T>)
    ensures |r| <= n && |r| <= |s|
    ensures |r| == n || |r| == |s|
    ensures forall i :: 0 <= i < |r| ==> r[i] == s[|s| - |r| + i]
  {
    if |s| <= n then s else s[|s| - n..]
  }

  /** The alert aggregator; its history is the only state it keeps. */
  class AlertSystem {
    var alertHistory: seq<Alert>
    /** Every alert ever appended, oldest first. */
    ghost var arrived: seq<Alert>

    /** The history is the most recent `HistoryLimit` of all alerts that arrived. */
    ghost predicate Valid()
      reads this
    {
      alertHistory == Keep(arrived, HistoryLimit)
    }

    constructor ()
      ensures Valid() && alertHistory == [] && arrived == []
    {
      alertHistory := [];
      arrived := [];
    }

    /**
     Records the triggered entries of one evaluation: they are returned and,
     if there are any, appended to the history, which is then cut back to its
     most recent `HistoryLimit` alerts.
     */
    method ProcessAlerts(alerts: seq<Evaluation>) returns (current: seq<Alert>)
      requires Valid()
      modifies this
      ensures Valid()
      ensures current == Triggered(alerts)
      ensures arrived == old(arrived) + current
      ensures alertHistory ==
        if current == [] then old(alertHistory) else Keep(old(alertHistory) + current, HistoryLimit)
      ensures |alertHistory| <= HistoryLimit
    {
      current := [];
      var i := 0;
      while i < |alerts|
        invariant 0 <= i <= |alerts|
        invariant current == Triggered(alerts[..i])
      {
        assert alerts[..i + 1][..i] == alerts[..i];
        if alerts[i].triggered {
          current := current + [ToAlert(alerts[i])];
        }
        i := i + 1;
      }
      assert alerts[..i] == alerts;
      if current != [] {
        KeepAppend(arrived, current, HistoryLimit);
        alertHistory := Keep(alertHistory + current, HistoryLimit);
      }
      arrived := arrived + current;
    }

    /** What the display shows: the most recent `DisplayCount` alerts, newest first. */
    method RecentAlerts() returns (shown: seq<Alert>)
      ensures shown == Reversed(Keep(alertHistory, DisplayCount))
    {
      var recent := Keep(alertHistory, DisplayCount);
      shown := [];
      var i := |recent|;
      while i > 0
        invariant 0 <= i <= |recent|
        invariant shown == Reversed(recent[i..])
      {
        i := i - 1;
        assert recent[i..][1..] == recent[i + 1..];
        shown := shown + [recent[i]];
      }
    }
  }

  /** `s` in reverse order. */
  function Reversed<T>(s: seq<T>): (r: seq<T>)
    ensures |r| == |s|
  {
    if s == [] then [] else Reversed(s[1..]) + [s[0]]
  }

  /** Reversal keeps the length and reads the original from its end. */
  lemma {:induction false} ReversedIndex<T>(s: seq<T>)
    ensures |Reversed(s)| == |s|
    ensures forall i :: 0 <= i < |s| ==> Reversed(s)[i] == s[|s| - 1 - i]
  {
    if s != [] {
      ReversedIndex(s[1..]);
    }
  }

  /** The last `n` elements of `s`, reversed: the i-th is the i-th from the end of `s`. */
  lemma ReversedKeepIndex<T>(s: seq<T>, n: nat)
    ensures forall i :: 0 <= i < |Reversed(Keep(s, n))| ==> Reversed(Keep(s, n))[i] == s[|s| - 1 - i]
  {
    var recent := Keep(s, n);
    var rev := Reversed(recent);
    ReversedIndex(recent);
    forall i | 0 <= i < |rev|
      ensures rev[i] == s[|s| - 1 - i]
    {
      var j := |recent| - 1 - i;
      assert rev[i] == recent[j];
      assert recent[j] == s[|s| - |recent| + j];
    }
  }

  /**
   The display shows min(len, 5) alerts, the i-th being the i-th most recent
   alert of the history.
   */
  lemma RecentNewestFirst(h: seq<Alert>)
    ensures |Reversed(Keep(h, DisplayCount))| == if |h| < DisplayCount then |h| else DisplayCount
    ensures forall i :: 0 <= i < |Reversed(Keep(h, DisplayCount))| ==>
      Reversed(Keep(h, DisplayCount))[i] == h[|h| - 1 - i]
  {
    ReversedKeepIndex(h, DisplayCount);
  }

  /** Filtering distributes over concatenation, so input order is kept. */
  lemma {:induction false} TriggeredAppend(a: seq<Evaluation>, b: seq<Evaluation>)
    ensures Triggered(a + b) == Triggered(a) + Triggered(b)
    decreases |b|
  {
    if b == [] {
      assert a + b == a;
    } else {
      var last := b[|b| - 1];
      assert (a + b)[..|a + b| - 1] == a + b[..|b| - 1];
      TriggeredAppend(a, b[..|b| - 1]);
    }
  }

  /** Every alert produced comes from a triggered entry, with that entry's sensor and message. */
  lemma {:induction false} TriggeredSound(es: seq<Evaluation>, k: nat)
    requires k < |Triggered(es)|
    ensures exists i :: 0 <= i < |es| && es[i].triggered && Triggered(es)[k] == ToAlert(es[i])
    decreases |es|
  {
    var init := es[..|es| - 1];
    var last := es[|es| - 1];
    if k < |Triggered(init)| {
      TriggeredSound(init, k);
      var i :| 0 <= i < |init| && init[i].triggered && Triggered(init)[k] == ToAlert(init[i]);
      assert es[i] == init[i];
    } else {
      assert es[|es| - 1] == last;
    }
  }

  /** Every triggered entry produces an alert. */
  lemma {:induction false} TriggeredComplete(es: seq<Evaluation>, i: nat)
    requires i < |es| && es[i].triggered
    ensures ToAlert(es[i]) in Triggered(es)
    decreases |es|
  {
    if i < |es| - 1 {
      var init := es[..|es| - 1];
      TriggeredComplete(init, i);
    }
  }

  /** With no triggered entry the result is empty, and conversely. */
  lemma {:induction false} TriggeredEmpty(es: seq<Evaluation>)
    ensures Triggered(es) == [] <==> forall i :: 0 <= i < |es| ==> !es[i].triggered
  {
    if Triggered(es) == [] {
      forall i | 0 <= i < |es|
        ensures !es[i].triggered
      {
        if es[i].triggered {
          TriggeredComplete(es, i);
        }
      }
    } else {
      TriggeredSound(es, 0);
    }
  }

  /** Every alert produced is high exactly when its message is a "too high" one. */
  lemma TriggeredSeverity(es: seq<Evaluation>, k: nat)
    requires k < |Triggered(es)|
    ensures Triggered(es)[k].severity == High <==> Contains(Phrase(Triggered(es)[k].message.kind), "too high")
    ensures Triggered(es)[k].severity == High <==> Triggered(es)[k].message.kind == TooHigh
  {
    PhraseContainsTooHigh(Triggered(es)[k].message.kind);
  }

  /**
   Truncating after every append gives the same history as truncating the
   whole stream once: the history is always the most recent alerts.
   */
  lemma {:induction false} KeepAppend<T>(a: seq<T>, b: seq<T>, n: nat)
    ensures Keep(Keep(a, n) + b, n) == Keep(a + b, n)
  {
    var l := Keep(Keep(a, n) + b, n);
    var r := Keep(a + b, n);
    assert |l| == |r|;
    forall i | 0 <= i < |l|
      ensures l[i] == r[i]
    {
      var j := |a + b| - |r| + i;
      if j >= |a| {
        assert r[i] == b[j - |a|];
      } else {
        assert r[i] == a[j];
      }
    }
  }
}
