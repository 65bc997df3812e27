/**
 * The trade chaincode: create (and Init), status update, point query, range
 * query and the Invoke dispatcher, over the peer's world state.
 *
 * Each operation that writes is given twice: a function from the old ledger
 * to the response and the new ledger, which carries the properties, and a
 * method of SimpleChaincode that performs the steps in order on the ledger
 * field and is proved to have that effect.
 */
module Chaincode {
  import opened Wrappers
  import opened Numbers
  import opened TradeJson
  import opened Peer
  import opened RangeQuery

  const CreateArityMessage := "Incorrect number of arguments. Expecting 6"
  const AmountMessage := "3r argument must be a numeric string"
  const UpdateArityMessage := "Incorrect number of arguments. Expecting 2"
  const QueryArityMessage := "Incorrect number of arguments. Expecting name of the person to query"
  const UnknownFunctionMessage := "Invalid Smart Contract function name."
  const InProgress := "InProgress"

  /** The error text of a failed GetState in the point query. */
  function ReadFailureMessage(id: string): string {
    "{\"Error\":\"Failed to get state for " + id + "\"}"
  }

  /** The error text of the point query for a key with no value. */
  function NotFoundMessage(id: string): string {
    "{\"Error\":\"No Response for Trade" + id + "\"}"
  }

  /** What one call hands back, and the world state after it. */
  datatype Outcome = Outcome(response: Response, ledger: Ledger)

  /** What the peer supplies to one call besides the arguments. */
  datatype Host = Host(
    ctime: string,    // the current time, already formatted in the fixed zone
    scan: Scan,       // what a full range scan yields
    readFails: bool)  // whether GetState returns an error

  /** Every stored value decodes as a trade. */
  predicate WellFormed(ledger: Ledger) {
    forall k :: k in ledger ==> Decode(ledger[k]).Some?
  }

  /* ---------------- createCar / Init ---------------- */

  /**
   * `createCar`: five arguments (id, from, to, amount, status); the amount
   * must pass Atoi; then the trade, stamped with ctime, is upserted at the
   * id. Either error writes nothing.
   */
  function CreateCarStep(ledger: Ledger, args: seq<string>, ctime: string): (o: Outcome)
    ensures |args| != 5 ==> o == Outcome(Error(CreateArityMessage), ledger)
    ensures |args| == 5 && Atoi(args[3]).None? ==> o == Outcome(Error(AmountMessage), ledger)
    ensures |args| == 5 && Atoi(args[3]).Some? ==>
      args[0] in o.ledger && o == Outcome(Success(""), ledger[args[0] := o.ledger[args[0]]])
  {
    if |args| != 5 then
      Outcome(Error(CreateArityMessage), ledger)
    else
      match Atoi(args[3])
      case None => Outcome(Error(AmountMessage), ledger)
      case Some(amount) =>
        var car := Trade(args[0], args[1], args[2], amount, args[4], ctime);
        Outcome(Success(""), ledger[args[0] := Encode(car)])
  }

  /**
   * After a successful createCar the value at the id reads back as the
   * trade built from the arguments and ctime.
   */
  lemma CreateCarStores(ledger: Ledger, args: seq<string>, ctime: string)
    requires |args| == 5 && Atoi(args[3]).Some?
    ensures var o := CreateCarStep(ledger, args, ctime);
      args[0] in o.ledger &&
      Decode(o.ledger[args[0]]) == Some(Trade(args[0], args[1], args[2], Atoi(args[3]).value, args[4], ctime))
  {
    DecodeEncode(Trade(args[0], args[1], args[2], Atoi(args[3]).value, args[4], ctime));
  }

  /* ---------------- updateStatus ---------------- */

  /**
   * The trade `updateStatus` starts from: the decoded stored value, or the
   * zero trade when the read fails, the key is absent or the value does not
   * decode.
   */
  function StoredTrade(ledger: Ledger, id: string, readFails: bool): Trade {
    if readFails || id !in ledger then ZeroTrade else Decode(ledger[id]).GetOr(ZeroTrade)
  }

  /**
   * `updateStatus`: two arguments; the trade at args[0] is rewritten with
   * status "InProgress" and its other fields kept, whatever args[1] says.
   * There is no existence check: an absent key gets a zero trade with only
   * the status set.
   */
  function UpdateStatusStep(ledger: Ledger, args: seq<string>, readFails: bool): (o: Outcome)
    ensures |args| != 2 ==> o == Outcome(Error(UpdateArityMessage), ledger)
    ensures |args| == 2 ==>
      args[0] in o.ledger && o == Outcome(Success(""), ledger[args[0] := o.ledger[args[0]]])
  {
    if |args| != 2 then
      Outcome(Error(UpdateArityMessage), ledger)
    else
      var trade := StoredTrade(ledger, args[0], readFails).(status := InProgress);
      Outcome(Success(""), ledger[args[0] := Encode(trade)])
  }

  /**
   * After updateStatus the value at args[0] reads back with status
   * "InProgress": the other fields are those of the stored trade, or empty
   * and zero when the read failed, the key was absent or the stored value
   * does not decode.
   */
  lemma UpdateStatusStores(ledger: Ledger, args: seq<string>, readFails: bool)
    requires |args| == 2
    ensures var o := UpdateStatusStep(ledger, args, readFails);
      && args[0] in o.ledger
      && Decode(o.ledger[args[0]]).Some?
      && Decode(o.ledger[args[0]]).value.status == InProgress
      && (!readFails && args[0] in ledger && Decode(ledger[args[0]]).Some? ==>
            Decode(o.ledger[args[0]]) == Some(Decode(ledger[args[0]]).value.(status := InProgress)))
      && (readFails || args[0] !in ledger || Decode(ledger[args[0]]).None? ==>
            Decode(o.ledger[args[0]]) == Some(Trade("", "", "", 0, InProgress, "")))
  {
    DecodeEncode(StoredTrade(ledger, args[0], readFails).(status := InProgress));
  }

  /* ---------------- queryforTradeID ---------------- */

  /**
   * `queryforTradeID`: one argument; a failed read and an absent key are
   * errors naming the id; otherwise the stored bytes exactly as they are.
   */
  function QueryForTradeId(ledger: Ledger, args: seq<string>, readFails: bool): (r: Response)
    ensures |args| != 1 ==> r == Error(QueryArityMessage)
    ensures r.Success? <==> |args| == 1 && !readFails && args[0] in ledger
    ensures r.Success? ==> r.payload == ledger[args[0]]
    ensures |args| == 1 && !readFails && args[0] !in ledger ==> r == Error(NotFoundMessage(args[0]))
    ensures |args| == 1 && readFails ==> r == Error(ReadFailureMessage(args[0]))
  {
    if |args| != 1 then
      Error(QueryArityMessage)
    else if readFails then
      Error(ReadFailureMessage(args[0]))
    else if args[0] !in ledger then
      Error(NotFoundMessage(args[0]))
    else
      Success(ledger[args[0]])
  }

  /* ---------------- Invoke ---------------- */

  /** The handler a function name selects. */
  datatype Handler = CreateCarHandler | QueryAllTradesHandler | UpdateStatusHandler | QueryHandler | NoHandler

  /** Invoke's if/else chain on the function name. */
  function Route(name: string): (h: Handler)
    ensures h == CreateCarHandler <==> name == "createCar"
    ensures h == QueryAllTradesHandler <==> name == "queryAllTrades"
    ensures h == UpdateStatusHandler <==> name == "updateStatus"
    ensures h == QueryHandler <==> name == "query"
  {
    if name == "createCar" then CreateCarHandler
    else if name == "queryAllTrades" then QueryAllTradesHandler
    else if name == "updateStatus" then UpdateStatusHandler
    else if name == "query" then QueryHandler
    else NoHandler
  }

  /**
   * The effect of Invoke: the selected handler's outcome; the two queries
   * never write, and an unknown name is an error that writes nothing.
   */
  function InvokeStep(ledger: Ledger, name: string, args: seq<string>, host: Host): (o: Outcome)
    ensures Route(name) == CreateCarHandler ==> o == CreateCarStep(ledger, args, host.ctime)
    ensures Route(name) == UpdateStatusHandler ==> o == UpdateStatusStep(ledger, args, host.readFails)
    ensures Route(name) == NoHandler ==> o == Outcome(Error(UnknownFunctionMessage), ledger)
    ensures Route(name) == QueryHandler ==> o == Outcome(QueryForTradeId(ledger, args, host.readFails), ledger)
    ensures Route(name) == QueryAllTradesHandler ==> o == Outcome(RangeResult(host.scan), ledger)
    ensures o.ledger != ledger ==> Route(name) in {CreateCarHandler, UpdateStatusHandler} && o.response == Success("")
  {
    match Route(name)
    case CreateCarHandler => CreateCarStep(ledger, args, host.ctime)
    case QueryAllTradesHandler => Outcome(RangeResult(host.scan), ledger)
    case UpdateStatusHandler => UpdateStatusStep(ledger, args, host.readFails)
    case QueryHandler => Outcome(QueryForTradeId(ledger, args, host.readFails), ledger)
    case NoHandler => Outcome(Error(UnknownFunctionMessage), ledger)
  }

  /* ---------------- the chaincode over its world state ---------------- */

  class SimpleChaincode {
    /** The world state the stub reads and writes. */
    var ledger: Ledger

    constructor (initial: Ledger)
      ensures ledger == initial
    {
      ledger := initial;
    }

    /** `Init`: the same checks and the same upsert as createCar. */
    method Init(args: seq<string>, ctime: string) returns (r: Response)
      modifies this
      ensures Outcome(r, ledger) == CreateCarStep(old(ledger), args, ctime)
    {
      if |args| != 5 {
        return Error(CreateArityMessage);
      }
      var amount := Atoi(args[3]);
      if amount.None? {
        return Error(AmountMessage);
      }
      var car := Trade(args[0], args[1], args[2], amount.value, args[4], ctime);
      ledger := ledger[args[0] := Encode(car)];
      return Success("");
    }

    method Invoke(name: string, args: seq<string>, host: Host) returns (r: Response)
      modifies this
      ensures Outcome(r, ledger) == InvokeStep(old(ledger), name, args, host)
    {
      if name == "createCar" {
        r := CreateCar(args, host.ctime);
      } else if name == "queryAllTrades" {
        r := QueryAllTrades(host.scan);
      } else if name == "updateStatus" {
        r := UpdateStatus(args, host.readFails);
      } else if name == "query" {
        r := QueryForTradeId(ledger, args, host.readFails);
      } else {
        r := Error(UnknownFunctionMessage);
      }
    }

    method CreateCar(args: seq<string>, ctime: string) returns (r: Response)
      modifies this
      ensures Outcome(r, ledger) == CreateCarStep(old(ledger), args, ctime)
    {
      if |args| != 5 {
        return Error(CreateArityMessage);
      }
      var amount := Atoi(args[3]);
      if amount.None? {
        return Error(AmountMessage);
      }
      var car := Trade(args[0], args[1], args[2], amount.value, args[4], ctime);
      ledger := ledger[args[0] := Encode(car)];
      return Success("");
    }

    /**
     * `queryAllTrades`: walks the scan, writing '[' and then each entry's
     * element, with a ',' before every element once one has been written;
     * a failing step ends the call with its error.
     */
    method QueryAllTrades(scan: Scan) returns (r: Response)
      ensures r == RangeResult(scan)
    {
      if scan.OpenError? {
        return Error(scan.message);
      }
      var steps := scan.steps;
      var buffer := "[";
      var memberWritten := false;
      ghost var seen: seq<Entry> := [];
      var i := 0;
      while i < |steps|
        invariant 0 <= i <= |steps|
        invariant |seen| == i
        invariant forall j :: 0 <= j < i ==> steps[j] == Next(seen[j])
        invariant memberWritten <==> i > 0
        invariant buffer == "[" + Join(Records(seen))
      {
        if steps[i].NextError? {
          ScanStops(scan, i);
          return Error(steps[i].message);
        }
        var e := steps[i].entry;
        buffer := WriteRecord(buffer, memberWritten, e, seen);
        ScanExtends(steps, seen, e);
        seen := seen + [e];
        memberWritten := true;
        i := i + 1;
      }
      buffer := buffer + "]";
      ScanCompletes(scan, seen);
      return Success(buffer);
    }

    /**
     * One round of queryAllTrades' loop: a ',' once an element has been
     * written, then the seven pieces of the entry's element, appended in turn.
     */
    static method WriteRecord(buffer: string, memberWritten: bool, e: Entry, ghost seen: seq<Entry>)
      returns (out: string)
      requires memberWritten <==> |seen| > 0
      requires buffer == "[" + Join(Records(seen))
      ensures out == "[" + Join(Records(seen + [e]))
    {
      out := buffer;
      if memberWritten {
        out := out + ",";
      }
      ghost var head := out;
      out := out + "{\"Key\":";
      out := out + "\"";
      out := out + e.key;
      out := out + "\"";
      out := out + ", \"Record\":";
      out := out + e.value;
      out := out + "}";
      ElementPieces(head, e);
      if memberWritten {
        BufferGrows(seen, e, buffer);
      } else {
        BufferStarts(seen, e, buffer);
      }
    }

    method UpdateStatus(args: seq<string>, readFails: bool) returns (r: Response)
      modifies this
      ensures Outcome(r, ledger) == UpdateStatusStep(old(ledger), args, readFails)
    {
      if |args| != 2 {
        return Error(UpdateArityMessage);
      }
      var stored: Option<string> := if readFails || args[0] !in ledger then None else Some(ledger[args[0]]);
      var trade := ZeroTrade;
      if stored.Some? {
        var decoded := Decode(stored.value);
        if decoded.Some? {
          trade := decoded.value;
        }
      }
      trade := trade.(status := InProgress);
      ledger := ledger[args[0] := Encode(trade)];
      return Success("");
    }
  }

  lemma RecordsAppend(es: seq<Entry>, e: Entry)
    ensures Records(es + [e]) == Records(es) + [RecordJson(e)]
  {
    assert |Records(es + [e])| == |es| + 1;
  }

  /** Appending the seven pieces of an element one by one appends the element. */
  lemma ElementPieces(head: string, e: Entry)
    ensures head + "{\"Key\":" + "\"" + e.key + "\"" + ", \"Record\":" + e.value + "}" == head + RecordJson(e)
  {
  }

  /** A later entry: a ',' and then its element extend the array text by that element. */
  lemma BufferGrows(seen: seq<Entry>, e: Entry, before: string)
    requires |seen| > 0 && before == "[" + Join(Records(seen))
    ensures (before + ",") + RecordJson(e) == "[" + Join(Records(seen + [e]))
  {
    var r := RecordJson(e);
    var J := Join(Records(seen));
    RecordsAppend(seen, e);
    JoinAppend(Records(seen), r);
    AppendAssoc("[", J, ",");
    AppendAssoc("[", J + ",", r);
  }

  /** The first entry: its element alone, with no ',' before it. */
  lemma BufferStarts(seen: seq<Entry>, e: Entry, before: string)
    requires |seen| == 0 && before == "[" + Join(Records(seen))
    ensures before + RecordJson(e) == "[" + Join(Records(seen + [e]))
  {
    assert seen + [e] == [e];
    assert Records([e]) == [RecordJson(e)];
    assert before == "[";
  }

  /** A scan whose first failing step is step i fails with that step's message. */
  lemma CollectStops(steps: seq<ScanStep>, i: nat)
    requires i < |steps| && steps[i].NextError?
    requires forall j :: 0 <= j < i ==> steps[j].Next?
    ensures Collect(steps) == Err(steps[i].message)
  {
    var r := Collect(steps);
    assert r.Err?;
    var j :| 0 <= j < |steps| && steps[j] == NextError(r.error) && forall k :: 0 <= k < j ==> steps[k].Next?;
    assert j == i;
  }

  /** A scan whose every step was an entry collects exactly those entries. */
  lemma CollectComplete(steps: seq<ScanStep>, seen: seq<Entry>)
    requires |seen| == |steps|
    requires forall j :: 0 <= j < |steps| ==> steps[j] == Next(seen[j])
    ensures Collect(steps) == Ok(seen)
  {
    var r := Collect(steps);
    assert r.Ok?;
    assert forall j :: 0 <= j < |seen| ==> r.value[j] == seen[j];
  }

  /** One more entry read from the scan keeps the entries seen in step with it. */
  lemma ScanExtends(steps: seq<ScanStep>, seen: seq<Entry>, e: Entry)
    requires |seen| < |steps| && steps[|seen|] == Next(e)
    requires forall j :: 0 <= j < |seen| ==> steps[j] == Next(seen[j])
    ensures forall j :: 0 <= j < |seen| + 1 ==> steps[j] == Next((seen + [e])[j])
  {
  }

  /** queryAllTrades stops at the first failing step, with that step's error. */
  lemma ScanStops(scan: Scan, i: nat)
    requires scan.Opened? && i < |scan.steps| && scan.steps[i].NextError?
    requires forall j :: 0 <= j < i ==> scan.steps[j].Next?
    ensures RangeResult(scan) == Error(scan.steps[i].message)
  {
    CollectStops(scan.steps, i);
  }

  /** queryAllTrades over a scan of entries only answers with the whole array. */
  lemma ScanCompletes(scan: Scan, seen: seq<Entry>)
    requires scan.Opened? && |seen| == |scan.steps|
    requires forall j :: 0 <= j < |scan.steps| ==> scan.steps[j] == Next(seen[j])
    ensures RangeResult(scan) == Success("[" + Join(Records(seen)) + "]")
  {
    CollectComplete(scan.steps, seen);
    if |seen| == 0 {
      assert Records(seen) == [];
    }
  }

  /* ---------------- properties across calls ---------------- */

  /** Every call keeps every stored value decodable. */
  lemma InvokePreservesWellFormed(ledger: Ledger, name: string, args: seq<string>, host: Host)
    requires WellFormed(ledger)
    ensures WellFormed(InvokeStep(ledger, name, args, host).ledger)
  {
    var o := InvokeStep(ledger, name, args, host);
    if o.ledger != ledger {
      if Route(name) == CreateCarHandler {
        WellFormedAfterWrite(ledger, args[0], Trade(args[0], args[1], args[2], Atoi(args[3]).value, args[4], host.ctime));
      } else {
        WellFormedAfterWrite(ledger, args[0], StoredTrade(ledger, args[0], host.readFails).(status := InProgress));
      }
    }
  }

  /** Writing the record of a trade keeps every value decodable. */
  lemma WellFormedAfterWrite(ledger: Ledger, k: string, t: Trade)
    requires WellFormed(ledger)
    ensures WellFormed(ledger[k := Encode(t)])
  {
    DecodeEncode(t);
    var updated := ledger[k := Encode(t)];
    forall k' | k' in updated
      ensures Decode(updated[k']).Some?
    {
      if k' != k {
        assert updated[k'] == ledger[k'];
      }
    }
  }

  /** Creating the same id twice leaves the second trade: last write wins. */
  lemma CreateCarLastWriteWins(ledger: Ledger, first: seq<string>, second: seq<string>, t1: string, t2: string)
    requires |first| == 5 && |second| == 5 && first[0] == second[0]
    requires Atoi(second[3]).Some?
    ensures CreateCarStep(CreateCarStep(ledger, first, t1).ledger, second, t2) == CreateCarStep(ledger, second, t2)
  {
    var k := first[0];
    var v := Encode(Trade(second[0], second[1], second[2], Atoi(second[3]).value, second[4], t2));
    if Atoi(first[3]).Some? {
      var x := Encode(Trade(first[0], first[1], first[2], Atoi(first[3]).value, first[4], t1));
      OverwriteTwice(ledger, k, x, v);
    }
  }

  lemma OverwriteTwice(m: Ledger, k: string, x: string, v: string)
    ensures m[k := x][k := v] == m[k := v]
  {
  }

  /** The second argument of updateStatus is never looked at. */
  lemma UpdateStatusIgnoresHint(ledger: Ledger, id: string, hint1: string, hint2: string, readFails: bool)
    ensures UpdateStatusStep(ledger, [id, hint1], readFails) == UpdateStatusStep(ledger, [id, hint2], readFails)
  {
  }

  /**
   * Create T1, query it, move it to InProgress and query it again: the
   * first query returns the trade as created, the second the same trade
   * with the new status.
   */
  lemma TradeLifecycle(ledger: Ledger, ctime: string)
    ensures var created := CreateCarStep(ledger, ["T1", "Alice", "Bob", "100", "Pending"], ctime).ledger;
      var q1 := QueryForTradeId(created, ["T1"], false);
      var updated := UpdateStatusStep(created, ["T1", "ignored"], false).ledger;
      var q2 := QueryForTradeId(updated, ["T1"], false);
      && q1.Success? && Decode(q1.payload) == Some(Trade("T1", "Alice", "Bob", 100, "Pending", ctime))
      && q2.Success? && Decode(q2.payload) == Some(Trade("T1", "Alice", "Bob", 100, InProgress, ctime))
  {
    assert "100"[..2] == "10" && "10"[..1] == "1" && "1"[..0] == "";
    assert DigitsValue("100") == 100;
    assert Atoi("100") == Some(100);
    var args := ["T1", "Alice", "Bob", "100", "Pending"];
    CreateCarStores(ledger, args, ctime);
    var created := CreateCarStep(ledger, args, ctime).ledger;
    UpdateStatusStores(created, ["T1", "ignored"], false);
  }
}
