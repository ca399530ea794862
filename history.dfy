/**
 * The scan history ledger of the home page: a most-recent-first list of
 * scan records that is never longer than MaxHistory after an append.
 */
module History {

  /** At most this many scans are kept (the `slice(0, 20)` of the page). */
  const MaxHistory: nat := 20

  /** What the disease detector returns; kept whole inside each record. */
  datatype Prediction = Prediction(
    diseaseName: string,
    confidence: real,
    description: string,
    solutions: seq<string>,
    preventiveMeasures: seq<string>)

  /** One entry of the history. */
  datatype ScanResult = ScanResult(
    id: string,
    date: string,
    imageUrl: string,
    diseaseName: string,
    confidence: real,
    prediction: Prediction)

  function Min(a: int, b: int): int { if a <= b then a else b }

  /** `s.slice(0, n)`: the first n elements, or all of s when it is shorter. */
  function Take<X>(s: seq<X>, n: nat): (r: seq<X>)
    ensures |r| == Min(|s|, n)
    ensures r == s[..|r|]
  {
    if |s| <= n then s else s[..n]
  }

  /** The history updater of the analyse handler: `[scan, ...history].slice(0, 20)`. */
  function Append(history: seq<ScanResult>, scan: ScanResult): (r: seq<ScanResult>)
    ensures 0 < |r| <= MaxHistory
    ensures r[0] == scan
    ensures r[1..] == history[..Min(|history|, MaxHistory - 1)]
    ensures |history| < MaxHistory ==> |r| == |history| + 1 && r == [scan] + history
    ensures |history| == MaxHistory ==> r == [scan] + history[..|history| - 1]
  {
    var r := Take([scan] + history, MaxHistory);
    assert r[1..] == ([scan] + history)[1..|r|];
    r
  }

  /** The record built from a detection result. */
  function NewScan(id: string, date: string, imageUrl: string, result: Prediction): (r: ScanResult)
    ensures r.diseaseName == result.diseaseName && r.confidence == result.confidence
    ensures r.prediction == result && r.imageUrl == imageUrl
    ensures r.id == id && r.date == date
  {
    ScanResult(id, date, imageUrl, result.diseaseName, result.confidence, result)
  }

  function Reverse<X>(s: seq<X>): seq<X>
  {
    if s == [] then [] else Reverse(s[1..]) + [s[0]]
  }

  /** The history after appending each of `scans`, first to last. */
  function AppendAll(history: seq<ScanResult>, scans: seq<ScanResult>): seq<ScanResult>
    decreases |scans|
  {
    if scans == [] then history else AppendAll(Append(history, scans[0]), scans[1..])
  }

  lemma {:induction false} ReverseAt<X>(s: seq<X>, i: nat)
    requires i < |s|
    ensures |Reverse(s)| == |s| && Reverse(s)[i] == s[|s| - 1 - i]
  {
    if i < |s| - 1 {
      ReverseAt(s[1..], i);
    } else {
      ReverseLength(s[1..]);
    }
  }

  lemma {:induction false} ReverseLength<X>(s: seq<X>)
    ensures |Reverse(s)| == |s|
  {
    if s != [] {
      ReverseLength(s[1..]);
    }
  }

  /** Trimming the tail before trimming the whole changes nothing. */
  lemma TakeOfTake<X>(a: seq<X>, b: seq<X>, n: nat)
    ensures Take(a + Take(b, n), n) == Take(a + b, n)
  {
  }

  /** Any run of appends leaves the newest MaxHistory scans, newest first, ahead of what survives of the old history. */
  lemma {:induction false} AppendAllKeepsNewest(history: seq<ScanResult>, scans: seq<ScanResult>)
    requires |history| <= MaxHistory || scans != []
    ensures AppendAll(history, scans) == Take(Reverse(scans) + history, MaxHistory)
    decreases |scans|
  {
    if scans == [] {
      assert Reverse(scans) + history == history;
    } else {
      var h' := Append(history, scans[0]);
      AppendAllKeepsNewest(h', scans[1..]);
      calc {
        AppendAll(history, scans);
        AppendAll(h', scans[1..]);
        Take(Reverse(scans[1..]) + Take([scans[0]] + history, MaxHistory), MaxHistory);
        { TakeOfTake(Reverse(scans[1..]), [scans[0]] + history, MaxHistory); }
        Take(Reverse(scans[1..]) + ([scans[0]] + history), MaxHistory);
        { assert Reverse(scans[1..]) + ([scans[0]] + history) == Reverse(scans) + history; }
        Take(Reverse(scans) + history, MaxHistory);
      }
    }
  }

  /** However many appends run, the history they leave is within the bound. */
  lemma {:induction false} AppendAllBounded(history: seq<ScanResult>, scans: seq<ScanResult>)
    requires |history| <= MaxHistory || scans != []
    ensures |AppendAll(history, scans)| <= MaxHistory
    decreases |scans|
  {
    if scans != [] {
      AppendAllBounded(Append(history, scans[0]), scans[1..]);
    }
  }

  /** Starting from an empty history, appends leave the most recent scans, newest first. */
  lemma NewestFirst(scans: seq<ScanResult>)
    ensures |AppendAll([], scans)| == Min(|scans|, MaxHistory)
    ensures forall i :: 0 <= i < |AppendAll([], scans)| ==>
      AppendAll([], scans)[i] == scans[|scans| - 1 - i]
  {
    AppendAllKeepsNewest([], scans);
    ReverseLength(scans);
    assert Reverse(scans) + [] == Reverse(scans);
    forall i | 0 <= i < |AppendAll([], scans)|
      ensures AppendAll([], scans)[i] == scans[|scans| - 1 - i]
    {
      ReverseAt(scans, i);
    }
  }

  /** Twenty-five scans on an empty history: the last twenty survive, newest first. */
  lemma TwentyFiveScans(scans: seq<ScanResult>)
    requires |scans| == 25
    ensures |AppendAll([], scans)| == 20
    ensures forall i :: 0 <= i < 20 ==> AppendAll([], scans)[i] == scans[24 - i]
    ensures scans[0] !in AppendAll([], scans) || scans[0] in scans[5..]
  {
    NewestFirst(scans);
    var r := AppendAll([], scans);
    if scans[0] in r {
      var i :| 0 <= i < |r| && r[i] == scans[0];
      assert scans[24 - i] == scans[0];
      assert scans[5..][19 - i] == scans[0];
    }
  }
}
