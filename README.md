# Trade chaincode: a Dafny model

This project models the Hyperledger Fabric chaincode `SimpleChaincode` in
`artifacts/src/github.com/example_cc/go/example_cc.go`. The chaincode keeps
`Trade` records in the peer's world state, keyed by trade id. Each record is
stored as the bytes of `json.Marshal(trade)`. It offers:

- `createCar` and `Init`: store a new trade, stamped with the current time;
- `updateStatus`: rewrite a trade with status `"InProgress"`;
- `query` (`queryforTradeID`): return the stored bytes of one trade;
- `queryAllTrades`: return a JSON array of every `(key, record)` pair from a
  full range scan;
- `Invoke`: route a function name to one of the handlers above.

The model is split into these files:

- `peer.dfy`: what the chaincode sees of the peer. The world state is a
  `map<string, string>`. A response is `Success(payload) | Error(message)`.
  A range scan is the error of opening it, or the sequence of its `Next()`
  results.
- `numbers.dfy`: `strconv.Atoi` for a 64-bit `int`, and decimal formatting.
- `trade_json.dfy`: the `Trade` record and its JSON text. `Encode` writes the
  six members in struct-tag order, escaping strings as `encoding/json` does.
  `Decode` reads that layout back. The round trip `Decode(Encode(t)) ==
  Some(t)` is proved.
- `range_query.dfy`: the array text `queryAllTrades` builds, and what a scan
  gives: the first failing step's error, or the complete array.
- `chaincode.dfy`:
  - one function per operation, from the old world state to the response
    and the new world state;
  - the class `SimpleChaincode`, whose `ledger` field the methods update as
    the Go code does, with each method proved to have its function's effect
    (`queryAllTrades` keeps the Go loop, its buffer and its "already
    written" flag);
  - lemmas across calls.

The current time, the scan result and a failing `GetState` are inputs: the
`Host` datatype carries them into `Invoke`.

Points of the code worth knowing:

- `query` returns the stored bytes themselves. The wrapped
  `{"SearchTrade":…,"Response":…}` string is only printed
  (`example_cc.go:207-209`).
- `queryAllTrades` writes the key between quotes without escaping it
  (`example_cc.go:150-153`). It separates the key from the record with
  `", \"Record\":"`, which has a space after the comma (`example_cc.go:155`).
- The arity error of `Init` and `createCar` says "Expecting 6", but the
  check is for five arguments (`example_cc.go:62-63`, `107-108`).
- `updateStatus` has no existence check. An absent id gets a zero trade
  whose status is `"InProgress"` (`example_cc.go:173-180`).

## Model

| member | source | states |
|---|---|---|
| Numbers.Atoi | artifacts/src/github.com/example_cc/go/example_cc.go:113-116 | an accepted amount ends in a digit; an all-digit text gives its decimal value; a leading '-' gives a value of at most zero; values outside the 64-bit range are rejected |
| Numbers.AtoiDigits | artifacts/src/github.com/example_cc/go/example_cc.go:113-116 | a non-empty run of decimal digits, leading zeros included, is accepted with its decimal value when that is at most the largest 64-bit int, and rejected otherwise |
| Numbers.AtoiPlusDigits | artifacts/src/github.com/example_cc/go/example_cc.go:113-116 | '+' followed by a non-empty run of digits is accepted with the digits' value when it fits, and rejected otherwise |
| Numbers.AtoiMinusDigits | artifacts/src/github.com/example_cc/go/example_cc.go:113-116 | '-' followed by a non-empty run of digits is accepted with the negated value when it fits the 64-bit range, and rejected otherwise |
| Numbers.AtoiAcceptsOnlyDigits | artifacts/src/github.com/example_cc/go/example_cc.go:113-116 | every accepted text is a non-empty run of digits, possibly after a single '+' or '-'; every other text takes the error branch of lines 114-115 |
| Numbers.AtoiFormatInt | artifacts/src/github.com/example_cc/go/example_cc.go:113 | every amount a trade can hold is accepted back by Atoi from its decimal text, with the same value |
| Numbers.NatToDecimal | artifacts/src/github.com/example_cc/go/example_cc.go:120 | the decimal text json.Marshal writes for a magnitude is all digits, denotes that number, and starts with '0' only for zero |
| Numbers.FormatInt | artifacts/src/github.com/example_cc/go/example_cc.go:120 | the amount's text is non-empty and starts with '-' exactly when the amount is negative |
| Numbers.DigitRunOfDigits | artifacts/src/github.com/example_cc/go/example_cc.go:176 | when decoding, a run of digits ends exactly where the next non-digit begins |
| TradeJson.TradeMembers | artifacts/src/github.com/example_cc/go/example_cc.go:47-54 | a trade is written as six members carrying the struct tags, in field order |
| TradeJson.FromValues | artifacts/src/github.com/example_cc/go/example_cc.go:47-54 | a trade is rebuilt only from six values of the right kinds, and its members carry exactly those values |
| TradeJson.UnicodeEscapeDecodes | artifacts/src/github.com/example_cc/go/example_cc.go:176 | a `\u` escape whose hex digits name a character reads back as that character |
| TradeJson.EscapeCharDecodes | artifacts/src/github.com/example_cc/go/example_cc.go:120 | every escape json.Marshal writes for a character (quote, backslash, control, HTML and line-separator characters) decodes back to that character |
| TradeJson.EscapeDecodes | artifacts/src/github.com/example_cc/go/example_cc.go:120 | an escaped text followed by the closing quote reads back as the text, whatever follows |
| TradeJson.QuotedDecodes | artifacts/src/github.com/example_cc/go/example_cc.go:176 | a quoted string member value decodes to the original string |
| TradeJson.DigitsDecode | artifacts/src/github.com/example_cc/go/example_cc.go:176 | the digits of a number followed by a non-digit decode to that number and stop at the non-digit |
| TradeJson.NegativeDecodes | artifacts/src/github.com/example_cc/go/example_cc.go:51 | a negative amount's text, sign included, decodes to that amount |
| TradeJson.IntLiteralDecodes | artifacts/src/github.com/example_cc/go/example_cc.go:51 | every 64-bit amount's text decodes to the amount and leaves the following text untouched |
| TradeJson.ExpectAccepts | artifacts/src/github.com/example_cc/go/example_cc.go:176 | fixed punctuation is consumed exactly, leaving what follows it |
| TradeJson.ValueDecodes | artifacts/src/github.com/example_cc/go/example_cc.go:176 | a member value, string or integer, decodes to itself |
| TradeJson.MemberDecodes | artifacts/src/github.com/example_cc/go/example_cc.go:176 | a `"name":value` member decodes to its value when its name is the expected one |
| TradeJson.MembersDecode | artifacts/src/github.com/example_cc/go/example_cc.go:176 | comma-separated members decode, with their names checked in order, to their values |
| TradeJson.TradeMembersShape | artifacts/src/github.com/example_cc/go/example_cc.go:47-54 | a trade's members carry the six tag names, and their values rebuild the same trade |
| TradeJson.DecodeEncode | artifacts/src/github.com/example_cc/go/example_cc.go:120 | a stored record reads back as exactly the trade that was written: no field lost, changed or added |
| TradeJson.EncodeInjective | artifacts/src/github.com/example_cc/go/example_cc.go:120 | two different trades are never stored as the same bytes |
| RangeQuery.RecordJson | artifacts/src/github.com/example_cc/go/example_cc.go:150-158 | each array element is an object: it starts with '{' and ends with '}' |
| RangeQuery.Records | artifacts/src/github.com/example_cc/go/example_cc.go:141-160 | there is one element per scanned entry, in scan order |
| RangeQuery.Collect | artifacts/src/github.com/example_cc/go/example_cc.go:141-145 | a scan completes exactly when every step yields an entry, and then gives those entries in order; otherwise it gives the message of the first failing step |
| RangeQuery.RangeResult | artifacts/src/github.com/example_cc/go/example_cc.go:125-166 | an empty scan gives "[]"; the result is a success exactly when the scan opened and no step failed; an open error is passed through |
| RangeQuery.JoinAppend | artifacts/src/github.com/example_cc/go/example_cc.go:146-149 | each further element adds exactly one comma, placed before it |
| RangeQuery.JoinLayout | artifacts/src/github.com/example_cc/go/example_cc.go:146-158 | in the joined text each element sits at its offset; each element after the first follows a single comma; the last element ends the text |
| RangeQuery.FirstPlaced | artifacts/src/github.com/example_cc/go/example_cc.go:138-158 | the first element sits right after '[' |
| RangeQuery.LaterPlaced | artifacts/src/github.com/example_cc/go/example_cc.go:146-158 | every later element sits right after a "}," pair and starts with '{' |
| RangeQuery.ArrayLayout | artifacts/src/github.com/example_cc/go/example_cc.go:138-161 | in the bracketed array each object sits at its place: the first right after '[', each later one after a "}," pair, the last right before ']' |
| RangeQuery.RangeJsonLayout | artifacts/src/github.com/example_cc/go/example_cc.go:138-161 | the output of a scan with N entries holds exactly those N elements, in scan order, with no leading, trailing or doubled comma |
| Chaincode.CreateCarStep | artifacts/src/github.com/example_cc/go/example_cc.go:105-124 | with other than five arguments, or an amount Atoi rejects, the call is an error and the world state is unchanged; otherwise it succeeds with an empty payload and writes only the key args[0] |
| Chaincode.CreateCarStores | artifacts/src/github.com/example_cc/go/example_cc.go:118-121 | after a successful create, the value at the id decodes to the trade built from the arguments, the parsed amount and the current time |
| Chaincode.UpdateStatusStep | artifacts/src/github.com/example_cc/go/example_cc.go:167-183 | with other than two arguments the call is an error and writes nothing; otherwise it succeeds and writes only the key args[0] |
| Chaincode.UpdateStatusStores | artifacts/src/github.com/example_cc/go/example_cc.go:173-180 | after updateStatus the value at the id decodes with status "InProgress" and the other fields of the stored trade; an absent id, a failed read or a stored value that does not decode gives the zero trade with that status |
| Chaincode.QueryForTradeId | artifacts/src/github.com/example_cc/go/example_cc.go:185-210 | the wrong arity is an error; the call succeeds exactly when the read works and the key is present, and then returns exactly the stored bytes; a failed read is the "Failed to get state" error naming the id, and an absent key the "No Response" error naming the id |
| Chaincode.Route | artifacts/src/github.com/example_cc/go/example_cc.go:90-100 | each of the four function names selects its own handler, and only that name does |
| Chaincode.InvokeStep | artifacts/src/github.com/example_cc/go/example_cc.go:85-101 | "createCar" gives createCar's outcome, "updateStatus" gives updateStatus's, "query" the point query with the world state unchanged, "queryAllTrades" the range result with the world state unchanged; any other name is an error that writes nothing; any change of the world state comes from createCar or updateStatus and answers with success |
| Chaincode.SimpleChaincode.Init | artifacts/src/github.com/example_cc/go/example_cc.go:60-79 | Init has the same response and the same effect on the world state as createCar on the same arguments |
| Chaincode.SimpleChaincode.CreateCar | artifacts/src/github.com/example_cc/go/example_cc.go:105-124 | the step-by-step create leaves the response and the world state that CreateCarStep describes |
| Chaincode.SimpleChaincode.UpdateStatus | artifacts/src/github.com/example_cc/go/example_cc.go:167-183 | the read, decode, status change and write leave the response and the world state that UpdateStatusStep describes |
| Chaincode.SimpleChaincode.QueryAllTrades | artifacts/src/github.com/example_cc/go/example_cc.go:125-166 | the buffer loop with its "already written" flag returns exactly RangeResult of the scan: the complete array, or the first error without the partial buffer |
| Chaincode.SimpleChaincode.Invoke | artifacts/src/github.com/example_cc/go/example_cc.go:85-101 | the if/else dispatch gives the response and the world state that InvokeStep describes |
| Chaincode.SimpleChaincode.WriteRecord | artifacts/src/github.com/example_cc/go/example_cc.go:147-158 | one round of the loop (a ',' when an element was already written, then the seven pieces of the element, one append each) turns the array text for the entries so far into the array text for one more entry |
| Chaincode.ElementPieces | artifacts/src/github.com/example_cc/go/example_cc.go:150-158 | writing the seven pieces of an element one after another appends exactly that element |
| Chaincode.BufferStarts | artifacts/src/github.com/example_cc/go/example_cc.go:147-158 | the first element is written right after '[' with no comma |
| Chaincode.BufferGrows | artifacts/src/github.com/example_cc/go/example_cc.go:147-158 | each later element is written after exactly one comma, extending the array text by that element |
| Chaincode.CollectStops | artifacts/src/github.com/example_cc/go/example_cc.go:142-145 | when the first failing step is step i, the scan's result is that step's error |
| Chaincode.CollectComplete | artifacts/src/github.com/example_cc/go/example_cc.go:141-161 | a scan whose every step produced an entry collects exactly those entries |
| Chaincode.ScanStops | artifacts/src/github.com/example_cc/go/example_cc.go:142-145 | when every step before step i yielded an entry and step i fails, queryAllTrades answers with step i's error |
| Chaincode.ScanCompletes | artifacts/src/github.com/example_cc/go/example_cc.go:141-165 | when every step yields an entry, queryAllTrades answers with the array of exactly those entries |
| Chaincode.WellFormedAfterWrite | artifacts/src/github.com/example_cc/go/example_cc.go:121 | writing the record of any trade keeps every stored value decodable |
| Chaincode.InvokePreservesWellFormed | artifacts/src/github.com/example_cc/go/example_cc.go:85-101 | if every stored value decodes as a trade before a call, the same holds after it |
| Chaincode.CreateCarLastWriteWins | artifacts/src/github.com/example_cc/go/example_cc.go:118-121 | creating an id that a previous create wrote leaves the same state as the second create alone: last write wins |
| Chaincode.UpdateStatusIgnoresHint | artifacts/src/github.com/example_cc/go/example_cc.go:169-180 | the second argument of updateStatus has no influence on its outcome |
| Chaincode.TradeLifecycle | artifacts/src/github.com/example_cc/go/example_cc.go:105-210 | creating T1 (Alice to Bob, 100, "Pending") and querying it returns that trade; after updateStatus a query returns the same trade with status "InProgress" |

## Left out

- The shim plumbing: `main`, `shim.Start`, `GetFunctionAndParameters` and the `sc.Response` type. A response is the `Response` datatype; `shim.Success(nil)` is `Success("")`.
- Wall-clock time and the `America/Los_Angeles` zone lookup (`example_cc.go:65-67`, `110-112`). The formatted time is the parameter `ctime`.
- The error of `time.LoadLocation` is ignored (`example_cc.go:65`, `110`). When the zone database is missing the location is nil and `In` panics, so `Init` and `createCar` crash. The model always succeeds there.
- The peer's range scan: its key order and `Close`. The scan is given as a sequence of `Next()` results. Releasing the iterator has no effect on the response, so it is not modelled.
- The scan given to `queryAllTrades` is not tied to the `ledger` field of `SimpleChaincode`. Its entries need not be the stored ones, so nothing links `queryAllTrades` to earlier writes.
- Errors from `PutState`, which the code ignores (`example_cc.go:76`, `121`, `180`). For example, the peer refuses an empty key. The model always performs the write.
- `fmt.Printf` logging (`example_cc.go:163`, `208`) and the wrapped response string that is only printed (`example_cc.go:207`).
- Consensus, endorsement and concurrent transactions, which belong to the peer.
- Bytes are modelled as characters: there is no UTF-8 encoding, and there is no replacement of invalid UTF-8 by json.Marshal.
- Decode: accepts only the exact layout json.Marshal writes. `json.Unmarshal` also accepts white space, members in any order, unknown members, keys that match case-insensitively, escapes in other forms, and objects with missing members, whose present fields it fills while the model gives the whole zero trade. After a type error Unmarshal keeps going, so it fills every other field it can, before and after the bad one; a syntax error fills nothing. The model reads any such value as a failed decode, which gives the zero trade in updateStatus. This does not matter for values this chaincode wrote.
- EscapeChar: Go releases before 1.22 write `\u0008` and `\u000c` for backspace and form feed, and later releases write `\b` and `\f`. The model writes the `\u00XX` form. Decode accepts both.
- Unescape: a `\u` escape that names half of a surrogate pair is rejected. Go combines it with its partner, or reads a lone one as U+FFFD. json.Marshal never writes such an escape.
