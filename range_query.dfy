/**
 * The text `queryAllTrades` assembles from a range scan: a JSON array with
 * one object per entry, `{"Key":"<key>", "Record":<stored bytes>}`, in scan
 * order, separated by single commas.
 */
module RangeQuery {
  import opened Wrappers
  import opened Peer

  /**
   * The array element for one entry. The key goes between quotes without
   * escaping; the stored bytes are embedded as they are.
   */
  function RecordJson(e: Entry): (r: string)
    ensures |r| >= 2 && r[0] == '{' && r[|r| - 1] == '}'
  {
    "{\"Key\":" + "\"" + e.key + "\"" + ", \"Record\":" + e.value + "}"
  }

  function Records(es: seq<Entry>): (r: seq<string>)
    ensures |r| == |es|
    ensures forall i :: 0 <= i < |es| ==> r[i] == RecordJson(es[i])
  {
    if |es| == 0 then [] else [RecordJson(es[0])] + Records(es[1..])
  }

  /** The parts separated by commas: "a,b,c". */
  function Join(parts: seq<string>): string {
    if |parts| == 0 then ""
    else if |parts| == 1 then parts[0]
    else parts[0] + "," + Join(parts[1..])
  }

  /** The complete response text for the entries of a scan. */
  function RangeJson(es: seq<Entry>): string {
    "[" + Join(Records(es)) + "]"
  }

  /**
   * The entries of a scan that completed, or the message of the first
   * failing `Next()`; the steps after a failure are never looked at.
   */
  function Collect(steps: seq<ScanStep>): (r: Result<seq<Entry>, string>)
    ensures r.Ok? <==> forall j :: 0 <= j < |steps| ==> steps[j].Next?
    ensures r.Ok? ==> |r.value| == |steps| && forall j :: 0 <= j < |steps| ==> steps[j] == Next(r.value[j])
    ensures r.Err? ==> exists j :: 0 <= j < |steps| && steps[j] == NextError(r.error) &&
                                   forall k :: 0 <= k < j ==> steps[k].Next?
  {
    if |steps| == 0 then
      Ok([])
    else
      match steps[0]
      case NextError(m) => Err(m)
      case Next(e) =>
        match Collect(steps[1..])
        case Err(m) =>
          ghost var j :| 0 <= j < |steps[1..]| && steps[1..][j] == NextError(m) &&
                         forall k :: 0 <= k < j ==> steps[1..][k].Next?;
          assert steps[j + 1] == NextError(m);
          Err(m)
        case Ok(es) => Ok([e] + es)
  }

  /**
   * The outcome of `queryAllTrades` for a scan: the error of opening it, the
   * error of its first failing step (the partial text is dropped), or the
   * complete array.
   */
  function RangeResult(scan: Scan): (r: Response)
    ensures scan == Opened([]) ==> r == Success("[]")
    ensures r.Success? <==> scan.Opened? && forall j :: 0 <= j < |scan.steps| ==> scan.steps[j].Next?
    ensures scan.OpenError? ==> r == Error(scan.message)
  {
    match scan
    case OpenError(m) => Error(m)
    case Opened(steps) =>
      match Collect(steps)
      case Err(m) => Error(m)
      case Ok(es) =>
        RangeJsonEmpty();
        Success(RangeJson(es))
  }

  /** Appending one part adds exactly one separator, before it. */
  lemma {:induction false} JoinAppend(parts: seq<string>, p: string)
    requires |parts| > 0
    ensures Join(parts + [p]) == Join(parts) + "," + p
  {
    if |parts| > 1 {
      assert (parts + [p])[1..] == parts[1..] + [p];
      JoinAppend(parts[1..], p);
    } else {
      assert parts + [p] == [parts[0], p];
    }
  }

  lemma SliceAfterPrefix(a: string, b: string, x: nat, y: nat)
    requires x <= y <= |b|
    ensures (a + b)[|a| + x..|a| + y] == b[x..y]
  {
    assert forall k :: 0 <= k < y - x ==> (a + b)[|a| + x..|a| + y][k] == b[x..y][k];
  }

  /** Where part i starts in Join(parts): one past the end of part i - 1 and its separator. */
  function Start(parts: seq<string>, i: nat): nat
    requires i <= |parts|
  {
    if i == 0 then 0 else Start(parts, i - 1) + |parts[i - 1]| + 1
  }

  lemma {:induction false} StartShift(parts: seq<string>, i: nat)
    requires 0 < i <= |parts|
    ensures Start(parts, i) == |parts[0]| + 1 + Start(parts[1..], i - 1)
  {
    if i > 1 {
      StartShift(parts, i - 1);
    }
  }

  /**
   * Join(parts) holds each part at its Start, the first at 0, each later one
   * right after a single ',', and the last one ends the text: so there is no
   * leading, trailing or doubled separator.
   */
  lemma {:induction false} JoinLayout(parts: seq<string>, i: nat)
    requires i < |parts|
    ensures Start(parts, i) + |parts[i]| <= |Join(parts)|
    ensures Join(parts)[Start(parts, i)..Start(parts, i) + |parts[i]|] == parts[i]
    ensures i > 0 ==> Join(parts)[Start(parts, i) - 1] == ','
    ensures i == |parts| - 1 ==> Start(parts, i) + |parts[i]| == |Join(parts)|
  {
    if |parts| == 1 {
    } else if i == 0 {
      var tail := "," + Join(parts[1..]);
      assert Join(parts) == parts[0] + tail;
      assert Join(parts)[..|parts[0]|] == parts[0];
    } else {
      var J := Join(parts);
      var head := parts[0] + ",";
      var rest := Join(parts[1..]);
      assert J == head + rest;
      StartShift(parts, i);
      JoinLayout(parts[1..], i - 1);
      var s := Start(parts[1..], i - 1);
      assert Start(parts, i) == |head| + s;
      SliceAfterPrefix(head, rest, s, s + |parts[i]|);
      if i > 1 {
        assert J[|head| + s - 1] == rest[s - 1];
      }
    }
  }

  /** The characters on both sides of the separator before part i. */
  lemma JoinNeighbours(parts: seq<string>, i: nat)
    requires 0 < i < |parts|
    requires |parts[i - 1]| > 0 && |parts[i]| > 0
    ensures 2 <= Start(parts, i) < |Join(parts)|
    ensures Join(parts)[Start(parts, i) - 2] == parts[i - 1][|parts[i - 1]| - 1]
    ensures Join(parts)[Start(parts, i)] == parts[i][0]
  {
    var J := Join(parts);
    var p, d := Start(parts, i - 1), parts[i - 1];
    JoinLayout(parts, i - 1);
    JoinLayout(parts, i);
    assert J[p..p + |d|][|d| - 1] == d[|d| - 1];
    assert J[Start(parts, i)..Start(parts, i) + |parts[i]|][0] == parts[i][0];
  }

  lemma InBrackets(J: string, x: nat, y: nat)
    requires x <= y <= |J|
    ensures ("[" + J + "]")[1 + x..1 + y] == J[x..y]
    ensures x < |J| ==> ("[" + J + "]")[1 + x] == J[x]
  {
    assert "[" + J + "]" == "[" + (J + "]");
    SliceAfterPrefix("[", J + "]", x, y);
    assert (J + "]")[x..y] == J[x..y];
  }

  /** An array element: an object between braces. */
  predicate Braced(p: string) {
    |p| >= 2 && p[0] == '{' && p[|p| - 1] == '}'
  }

  /**
   * Part i sits in the array text out at offset 1 + Start(parts, i): the
   * first right after '[', each later one right after a single ',' that
   * follows a '}' and precedes a '{', and the last right before ']'.
   */
  predicate PlacedAt(out: string, parts: seq<string>, i: nat)
    requires i < |parts|
  {
    var at := 1 + Start(parts, i);
    && at + |parts[i]| < |out|
    && out[at..at + |parts[i]|] == parts[i]
    && (i == 0 ==> at == 1)
    && (i > 0 ==> at >= 2 && out[at - 1] == ',' && out[at - 2] == '}' && out[at] == '{')
    && (i == |parts| - 1 ==> at + |parts[i]| == |out| - 1)
  }

  lemma ArrayLayout(parts: seq<string>, i: nat)
    requires i < |parts|
    requires forall j :: 0 <= j < |parts| ==> Braced(parts[j])
    ensures PlacedAt("[" + Join(parts) + "]", parts, i)
  {
    if i == 0 {
      FirstPlaced(parts);
    } else {
      LaterPlaced(parts, i);
    }
  }

  /** The first part sits right after '['. */
  lemma FirstPlaced(parts: seq<string>)
    requires 0 < |parts| && Braced(parts[0])
    ensures PlacedAt("[" + Join(parts) + "]", parts, 0)
  {
    var J := Join(parts);
    JoinLayout(parts, 0);
    InBrackets(J, 0, |parts[0]|);
  }

  /** A later part sits right after a "}," pair and starts with '{'. */
  lemma LaterPlaced(parts: seq<string>, i: nat)
    requires 0 < i < |parts| && Braced(parts[i - 1]) && Braced(parts[i])
    ensures PlacedAt("[" + Join(parts) + "]", parts, i)
  {
    JoinLayout(parts, i);
    JoinNeighbours(parts, i);
    AfterSeparator(Join(parts), parts[i], Start(parts, i));
  }

  /**
   * A part p found at offset s of J, after "},", keeps its place and its
   * neighbours once J is put between brackets.
   */
  lemma AfterSeparator(J: string, p: string, s: nat)
    requires 2 <= s && s + |p| <= |J| && J[s..s + |p|] == p
    requires J[s - 1] == ',' && J[s - 2] == '}' && Braced(p)
    ensures var out := "[" + J + "]";
      && 1 + s + |p| < |out|
      && out[1 + s..1 + s + |p|] == p
      && out[s] == ',' && out[s - 1] == '}' && out[1 + s] == '{'
      && (s + |p| == |J| ==> 1 + s + |p| == |out| - 1)
  {
    InBrackets(J, s, s + |p|);
    assert J[s] == J[s..s + |p|][0];
    BracketChar(J, s - 1);
    BracketChar(J, s - 2);
    BracketChar(J, s);
  }

  lemma BracketChar(J: string, x: nat)
    requires x < |J|
    ensures ("[" + J + "]")[1 + x] == J[x]
  {
  }

  /**
   * The range response for N entries holds entry i's element at its place
   * (PlacedAt): the N elements appear in scan order, with no leading,
   * trailing or doubled separator.
   */
  lemma RangeJsonLayout(es: seq<Entry>, i: nat)
    requires i < |es|
    ensures |Records(es)| == |es| && Records(es)[i] == RecordJson(es[i])
    ensures PlacedAt(RangeJson(es), Records(es), i)
  {
    var parts := Records(es);
    forall j | 0 <= j < |parts|
      ensures Braced(parts[j])
    {
      assert parts[j] == RecordJson(es[j]);
    }
    ArrayLayout(parts, i);
  }

  lemma RangeJsonEmpty()
    ensures RangeJson([]) == "[]"
  {
  }

  /** One entry: its element between the brackets, no comma at all. */
  lemma RangeJsonSingle(e: Entry)
    ensures RangeJson([e]) == "[" + RecordJson(e) + "]"
  {
    assert Records([e]) == [RecordJson(e)];
  }
}
