/**
 The change-only log of governance parameters. At every block the chain-indexer asks the node for
 the D-parameter and the terms and conditions and stores only what differs from the newest stored
 value; readers later ask for the value at a height.
 */
module SystemParameters {
  import opened Common

  datatype DParameter = DParameter(numPermissionedCandidates: nat, numRegisteredCandidates: nat)
  datatype TermsAndConditions = TermsAndConditions(hash: nat, url: string)

  /** What the node reports at one block; also the shape of a detected change. */
  datatype Parameters = Parameters(d: Option<DParameter>, terms: Option<TermsAndConditions>)

  datatype LogEntry<T> = LogEntry(height: nat, value: T)

  /** A present value that is not the newest stored one; an absent value is never a change. */
  function Changed<T(==)>(current: Option<T>, stored: Option<T>): Option<T> {
    if current.Some? && current != stored then current else None
  }

  function DetermineChange(
    current: Parameters, storedD: Option<DParameter>, storedTerms: Option<TermsAndConditions>): Option<Parameters>
  {
    var d := Changed(current.d, storedD);
    var terms := Changed(current.terms, storedTerms);
    if d.Some? || terms.Some? then Some(Parameters(d, terms)) else None
  }

  /** One optional change per height, as the table rows they insert. */
  function LogOf<T>(changes: seq<Option<T>>): seq<LogEntry<T>> {
    if changes == [] then []
    else
      var n := |changes| - 1;
      LogOf(changes[..n]) + if changes[n].Some? then [LogEntry(n, changes[n].value)] else []
  }

  /** The newest stored value. */
  function Latest<T>(log: seq<LogEntry<T>>): Option<T> {
    if log == [] then None else Some(log[|log| - 1].value)
  }

  /** The newest stored value at or below a height. */
  function NewestAt<T>(log: seq<LogEntry<T>>, height: nat): Option<T> {
    if log == [] then None
    else if log[|log| - 1].height <= height then Some(log[|log| - 1].value)
    else NewestAt(log[..|log| - 1], height)
  }

  /** The last value the node reported at heights `0..=height`; reports may be absent. */
  function LastReported<T>(reported: seq<Option<T>>, height: nat): Option<T>
    requires height < |reported|
  {
    if reported[height].Some? then reported[height]
    else if height == 0 then None
    else LastReported(reported, height - 1)
  }

  /** Each height's change was decided against the log as it stood before that height. */
  ghost predicate Logged<T>(reported: seq<Option<T>>, changes: seq<Option<T>>) {
    && |reported| == |changes|
    && forall i :: 0 <= i < |changes| ==> changes[i] == Changed(reported[i], Latest(LogOf(changes[..i])))
  }

  ghost predicate StrictlyByHeight<T>(log: seq<LogEntry<T>>, bound: nat) {
    && (forall i :: 0 <= i < |log| ==> log[i].height < bound)
    && (forall i, j :: 0 <= i < j < |log| ==> log[i].height < log[j].height)
  }

  lemma {:induction false} LogIsByHeight<T>(changes: seq<Option<T>>)
    ensures StrictlyByHeight(LogOf(changes), |changes|)
  {
    if changes != [] {
      LogIsByHeight(changes[..|changes| - 1]);
    }
  }

  lemma {:induction false} PrefixLogged<T>(reported: seq<Option<T>>, changes: seq<Option<T>>, n: nat)
    requires Logged(reported, changes) && n <= |changes|
    ensures Logged(reported[..n], changes[..n])
  {
    forall i | 0 <= i < n ensures changes[i] == Changed(reported[i], Latest(LogOf(changes[..n][..i]))) {
      assert changes[..n][..i] == changes[..i];
    }
  }

  lemma {:induction false} LastReportedIgnoresLater<T>(reported: seq<Option<T>>, n: nat, height: nat)
    requires height < n <= |reported|
    ensures LastReported(reported, height) == LastReported(reported[..n], height)
  {
    if reported[height].None? && height > 0 {
      LastReportedIgnoresLater(reported, n, height - 1);
    }
  }

  /** Looking a height up in a log that ends below it finds the newest entry. */
  lemma NewestAboveAll<T>(log: seq<LogEntry<T>>, height: nat)
    requires forall i :: 0 <= i < |log| ==> log[i].height <= height
    ensures NewestAt(log, height) == Latest(log)
  {
  }

  /** What one more height adds to the log, as lookups see it. */
  lemma LookupSnoc<T>(changes: seq<Option<T>>, height: nat)
    requires height < |changes|
    ensures
      var n := |changes| - 1;
      var init := LogOf(changes[..n]);
      NewestAt(LogOf(changes), height) ==
        if height < n then NewestAt(init, height) else if changes[n].Some? then changes[n] else Latest(init)
  {
    var n := |changes| - 1;
    var init := LogOf(changes[..n]);
    LogIsByHeight(changes[..n]);
    if changes[n].Some? {
      assert LogOf(changes)[..|init|] == init;
    } else {
      assert LogOf(changes) == init;
      if height == n {
        NewestAboveAll(init, n);
      }
    }
  }

  /**
   The stored log loses nothing: at every indexed height, the newest entry at or below it is the
   last value the node reported up to it.
   */
  lemma {:induction false} LogReconstructsReports<T>(reported: seq<Option<T>>, changes: seq<Option<T>>, height: nat)
    requires Logged(reported, changes) && height < |changes|
    ensures NewestAt(LogOf(changes), height) == LastReported(reported, height)
    decreases |changes|
  {
    var n := |changes| - 1;
    PrefixLogged(reported, changes, n);
    LookupSnoc(changes, height);
    if height < n {
      LogReconstructsReports(reported[..n], changes[..n], height);
      LastReportedIgnoresLater(reported, n, height);
    } else if n > 0 {
      LogReconstructsReports(reported[..n], changes[..n], n - 1);
      LastReportedIgnoresLater(reported, n, n - 1);
      LogIsByHeight(changes[..n]);
      NewestAboveAll(LogOf(changes[..n]), n - 1);
    }
  }

  /** When the node reports a value at every block, as it does for the D-parameter, the log holds it exactly. */
  lemma LogIsExactWhenAlwaysReported<T>(reported: seq<Option<T>>, changes: seq<Option<T>>, height: nat)
    requires Logged(reported, changes) && height < |changes|
    requires reported[height].Some?
    ensures NewestAt(LogOf(changes), height) == reported[height]
  {
    LogReconstructsReports(reported, changes, height);
  }

  /** The log is change-only: no two neighbouring entries hold the same value. */
  lemma {:induction false} LogHasNoRepeats<T>(reported: seq<Option<T>>, changes: seq<Option<T>>, i: nat)
    requires Logged(reported, changes) && i + 1 < |LogOf(changes)|
    ensures LogOf(changes)[i].value != LogOf(changes)[i + 1].value
    decreases |changes|
  {
    var n := |changes| - 1;
    PrefixLogged(reported, changes, n);
    if i + 1 < |LogOf(changes[..n])| {
      LogHasNoRepeats(reported[..n], changes[..n], i);
    } else {
      assert changes[n] == Changed(reported[n], Latest(LogOf(changes[..n])));
    }
  }
}
