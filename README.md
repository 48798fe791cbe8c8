# ibapi wire codec, modelled in Dafny

This project models the core of `ibapi`, a Rust client for the Interactive
Brokers TWS API. The protocol is a stream of fields. Each field is text
ended by a NUL byte, and each message is framed by a four-byte big-endian
length. The model covers:

- **The field deserializer** (`src/protocol/de.rs`). A `Reader` class stands
  for the buffered reader. A `Deserializer` class holds it and reads one
  NUL-terminated token per field. `Decode` states what a whole shape reads
  back as. `Tokens` is the token stream a serializer writes for a value.
  The main round trip, `DecodeOfTokens`, proves that the tokens of every
  conforming value decode back to it.
- **Framing and errors** (`src/protocol/mod.rs`). The model covers the
  protocol error type and its `description`, `cause` and `Display`; the
  length prefix written by `to_writer`, including its `as u32` truncation;
  and a `Writer` class whose `write_all` may stop early with an error.
- **The open-order message** (`src/protocol/order.rs`):
  - `OpenOrderMessage` is the record as it arrives;
  - the `From` conversion into `OpenOrder` is a method that updates the
    order, the contract and the state step by step. It is proved equal to
    the function `ConvertedOpenOrder`. That function is built from
    `ConvertedContract`, `ConvertedOrder` and `ConvertedState`, which only
    compute and carry no contract of their own;
  - lemmas in `ProtocolOrderFacts` state which message fields land where in
    those functions' results, which order fields keep their defaults, and
    which message values are overwritten;
  - `OptionalType`: its `visit_seq`, the spec function behind it, and its
    instance over the field deserializer, with round-trip lemmas.
- **The IB types** (`src/ib/*.rs`):
  - every enumeration and the wire token of each variant, with renames and
    aliases;
  - the algorithm parameter table;
  - the default order, the default order state, and the default contract
    and combo leg;
  - order conditions;
  - message tags and the variant each selects (the derived reader has no
    catch-all: an unlisted tag is refused);
  - the reduced contracts carried by position and portfolio messages;
  - the outgoing requests, whose renames fuse the message number and its
    version with a NUL.

A record the serde derive lays out field by field is modelled as a value of
the serde data model (`Wire.Value`: integers, strings, booleans, floats,
records, tagged variants, lists, options). Each layout function (`…Value`)
is paired with a reading function (`…OfValue`). The layout's own contract,
or a round-trip lemma beside it, proves that reading the layout back gives
the original. The request layouts are read back together, by
`RequestOfValue`.

The modules follow the source files:

| module | source |
|---|---|
| `Wrappers` | `Option` and `Result` |
| `Wire` | bytes, `i32`, `f64` bit patterns, joined tokens, decimal text, the serde data model |
| `ProtocolDe` | `src/protocol/de.rs` |
| `Protocol` | `src/protocol/mod.rs` |
| `ProtocolOrder`, `ProtocolOrderFacts`, `ProtocolOrderOptional` | `src/protocol/order.rs` |
| `IbTypes`, `IbContract`, `IbOrder`, `IbOrderCondition`, `IbMessage`, `IbRequest` | `src/ib/types.rs`, `contract.rs`, `order.rs`, `order_condition.rs`, `message.rs`, `request.rs` |

## Model

| member | source | states |
|---|---|---|
| ProtocolDe.ReadUntilSpec | src/protocol/de.rs:39 | `read_until` appends exactly the bytes from the cursor up to and including the delimiter, or up to the end of the data, or up to the byte whose read fails |
| ProtocolDe.ReadUntilStop | src/protocol/de.rs:39 | given where the first delimiter, the end or the failing byte lies, the read stops exactly there with the matching outcome |
| ProtocolDe.Reader.ReadUntil | src/protocol/de.rs:39 | the reader's loop appends the bytes `ReadUntilSpec` names, moves the cursor to its end and reports its count or its error |
| ProtocolDe.ReadToken | src/protocol/de.rs:37-40 | the token read never moves the cursor backwards or past the data |
| ProtocolDe.ReadStringSpec | src/protocol/de.rs:36-44 | `read_string` never moves the cursor backwards or past the data |
| ProtocolDe.ReadTokenNulFree | src/protocol/de.rs:37-40 | after the trailing delimiter is popped, the kept bytes never contain a NUL |
| ProtocolDe.ReadTokenConsumes | src/protocol/de.rs:37-40 | with a NUL ahead and no failure, the token is the bytes before it and the cursor lands just past it |
| ProtocolDe.ReadStringNulFree | src/protocol/de.rs:36-44 | a string read never contains a NUL |
| ProtocolDe.ReadStringAtEnd | src/protocol/de.rs:36-44 | at the end of the data, `read_string` returns the empty string and does not move |
| ProtocolDe.ReadStringUnterminated | src/protocol/de.rs:39-40 | a last field without a NUL loses its final byte to the unconditional `pop` |
| ProtocolDe.ReadStringFault | src/protocol/de.rs:15-17 | a failing read surfaces, through `ConvertIoError` (`convert_io_error`), as `Custom` carrying the I/O error's description |
| ProtocolDe.ReadTokenOf | src/protocol/de.rs:37-40 | a NUL-free token followed by a NUL reads back as itself |
| ProtocolDe.ReadStringOf | src/protocol/de.rs:36-44 | the same token reads back as its text, one position past the NUL |
| ProtocolDe.Deserializer.New | src/protocol/de.rs:29-34 | a new deserializer holds the given reader, leaves its cursor and data as they were, and starts with `next == 0` |
| ProtocolDe.Deserializer.ReadString | src/protocol/de.rs:36-44 | the method returns what `ReadStringSpec` says and leaves the cursor where it says |
| ProtocolDe.Decode | src/protocol/de.rs:47-107 | a decode that does not panic never moves the cursor backwards or past the data |
| ProtocolDe.DecodeFields | src/protocol/de.rs:76-101 | the struct visitor reads every field in order from one cursor and yields a record with one value per field |
| ProtocolDe.Tokens | src/protocol/de.rs:21-22 | every field is written as a NUL-free token |
| ProtocolDe.DecodeU64OfToken | src/protocol/de.rs:56-62 | a number's decimal token decodes to the number |
| ProtocolDe.DecodeTextOfToken | src/protocol/de.rs:64-74 | a string's token decodes to the string, borrowed or owned |
| ProtocolDe.DecodeOfTokens | src/protocol/de.rs:47-107 | round trip: the tokens of every conforming value decode back to it, using exactly its bytes, wherever it sits in the data |
| ProtocolDe.DecodeStructOfTokens | src/protocol/de.rs:76-101 | round trip for a struct: its fields' tokens decode to the record |
| ProtocolDe.LayOut | src/protocol/de.rs:76-101 | a struct's tokens split into one run per field, each starting where the previous one ends |
| ProtocolDe.DecodeFieldsFrom | src/protocol/de.rs:88-93 | when every remaining field decodes where its run starts, the visitor produces the record and stops at the last run's end |
| ProtocolDe.Deserializer.DeserializeU64 | src/protocol/de.rs:56-62 | reads one token and returns the number, or the read's error |
| ProtocolDe.Deserializer.DeserializeStr | src/protocol/de.rs:64-68 | reads one token and returns its text, or the read's error |
| ProtocolDe.Deserializer.DeserializeString | src/protocol/de.rs:70-74 | the same for an owned string |
| ProtocolDe.Deserializer.Deserialize | src/protocol/de.rs:47-107 | dispatches on the shape and agrees with `Decode`: a value and the cursor after it, or the error |
| ProtocolDe.Deserializer.DeserializeStruct | src/protocol/de.rs:76-101 | the loop over the fields agrees with `Decode` and stops at the first error |
| Protocol.Description | src/protocol/mod.rs:57-63 | an I/O error describes itself as the error it wraps; `SequenceMustHaveLength` has its fixed text |
| Protocol.Cause | src/protocol/mod.rs:65-71 | only an I/O error has a cause, and it is the I/O error the error wraps |
| Protocol.FromIoError | src/protocol/mod.rs:75-79 | the error keeps the I/O error as its cause and its description |
| Protocol.CustomError | src/protocol/mod.rs:90-94 | a custom error has no cause, and its description is the message |
| Protocol.DisplayAsWritten | src/protocol/mod.rs:81-89 | as written, showing `SequenceMustHaveLength` never finishes at any depth, and every other error shows |
| Protocol.Display | src/protocol/mod.rs:81-89 | the corrected display shows `SequenceMustHaveLength` as its description and every other error as written |
| Protocol.DisplayAgrees | src/protocol/mod.rs:81-89 | at every depth, every other error shows as written; an I/O error shows "IO error: " and the I/O error's own display text |
| Protocol.CustomShowsMessage | src/protocol/mod.rs:86 | a custom error shows its message, and its description is the message |
| Protocol.Serializer.Serialize | src/protocol/mod.rs:42-46 | serializing appends the value's tokens to the output |
| Protocol.ToBytes | src/protocol/mod.rs:42-46 | `to_bytes` returns serializing's error when there is one; otherwise it yields the value's tokens, and they decode back to the value |
| Protocol.BigEndian4RoundTrip | src/protocol/mod.rs:37 | `to_be_bytes` of a `u32` reads back as the number |
| Protocol.LengthPrefix | src/protocol/mod.rs:36-37 | the prefix is four bytes holding the length modulo 2^32 |
| Protocol.Frame | src/protocol/mod.rs:35-38 | a frame is the prefix followed by the message |
| Protocol.ParseFrameOfFrame | src/protocol/mod.rs:35-38 | a frame of a message under 4 GiB parses back to the message, whatever follows it |
| Protocol.FrameTruncatesLength | src/protocol/mod.rs:36 | for a message of 4 GiB or more, the prefix understates the length |
| Protocol.Accepted | src/protocol/mod.rs:37-38 | a write keeps a prefix of the buffer within the capacity, and keeps all of it exactly when it fits |
| Protocol.AcceptedSplit | src/protocol/mod.rs:37-38 | writing two buffers in turn accepts what writing them joined accepts |
| Protocol.Writer.WriteAll | src/protocol/mod.rs:37-38 | `write_all` records its call, appends what fits and fails with the writer's error when the buffer does not fit |
| Protocol.ToWriter | src/protocol/mod.rs:30-40 | a serializing error comes back before the writer is called; otherwise `to_writer` writes the frame of the value's tokens and fails exactly when it does not fit |
| Protocol.FrameCalls | src/protocol/mod.rs:36-38 | the prefix is always offered, and the body is offered exactly when the prefix fit |
| Protocol.WriteFrame | src/protocol/mod.rs:35-39 | `write_all` is called on the prefix, and on the body only if the prefix fit; the bytes kept are the frame's accepted part; the I/O error is wrapped |
| Protocol.NoBodyAfterFailedPrefix | src/protocol/mod.rs:37-38 | when the prefix does not fit, no byte of the body is written |
| Protocol.WholeFrameWritten | src/protocol/mod.rs:37-38 | when the frame fits, the written bytes parse back to the message |
| IbTypes.Params | src/ib/types.rs:26-41 | only `None` has no parameters; every other strategy starts with `startTime`, `endTime`, and no parameter repeats |
| IbTypes.PastEndTime | src/ib/types.rs:31-38 | `allowPastEndTime` is a parameter of exactly Twap, ArrivalPx and DarkIce |
| IbTypes.HedgeValue | src/ib/types.rs:44-52 | each hedge is its rename, with its parameter after every tag but the empty one, and reads back |
| IbTypes.HedgeOfValueIs | src/ib/types.rs:44-52 | a value that reads as a hedge is that hedge's layout |
| IbTypes.RightToken | src/ib/types.rs:54-60 | each right's token reads back as it |
| IbTypes.RightAlias | src/ib/types.rs:57 | "?" reads as `None`, which is written as "" |
| IbTypes.RightOfTokenIs | src/ib/types.rs:54-60 | the tokens read as a right are exactly the renames and the alias |
| IbTypes.VolatilityTypeToken | src/ib/types.rs:62-68 | each volatility type's token reads back as it |
| IbTypes.VolatilityTypeAlias | src/ib/types.rs:65 | "2147483647" reads as `None`, which is written as "0" |
| IbTypes.ReferencePriceTypeToken | src/ib/types.rs:70-77 | each reference price type's token reads back as it |
| IbTypes.ReferencePriceTypeNoSentinel | src/ib/types.rs:73-74 | with the sentinel rename commented out, "2147483647" reads as nothing |
| IbTypes.TriggerMethodToken | src/ib/types.rs:79-89 | each trigger method's token reads back as it |
| IbTypes.TriggerMethodGap | src/ib/types.rs:82-88 | "5" and "6" are no trigger method, and the default is written "0" |
| IbTypes.ActionToken | src/ib/types.rs:90-98 | each action's token reads back as it |
| IbTypes.Rule80AToken | src/ib/types.rs:100-113 | each rule 80A value's token reads back as it |
| IbTypes.Rule80AAlias | src/ib/types.rs:103 | "0" reads as `None`, which is written as "" |
| IbTypes.Rule80ALetters | src/ib/types.rs:104-112 | every other rule 80A value is one letter, and the letters differ |
| IbTypes.OcaTypeToken | src/ib/types.rs:115-122 | each OCA type's token reads back as it |
| IbTypes.TimeInForceToken | src/ib/types.rs:124-127 | each time in force's token reads back as it |
| IbTypes.UsePriceMgmtAlgoToken | src/ib/types.rs:246-251 | each price-management choice's token reads back as it |
| IbContract.LegOpenCloseToken | src/ib/contract.rs:43-50 | each leg open/close value's token reads back as it |
| IbContract.ShortSaleSlotToken | src/ib/contract.rs:54-59 | each short-sale slot's token reads back as it |
| IbContract.DefaultComboLeg | src/ib/contract.rs:78-91 | the default leg has exempt code -1 and every other field at its default |
| IbContract.DefaultContract | src/ib/contract.rs:5-28 | the default contract has no delta-neutral contract, no legs, and zero and empty fields |
| IbContract.IsCombo | src/ib/contract.rs:38-40 | a contract is a combo exactly when it has legs |
| IbContract.DefaultNotCombo | src/ib/contract.rs:38-40 | the default contract is not a combo |
| IbContract.ComboByLegs | src/ib/contract.rs:38-40 | adding a leg makes a combo, and removing all legs unmakes it |
| IbContract.DeltaNeutralContractValue | src/ib/contract.rs:30-35 | a delta-neutral contract is its three fields, and reads back |
| IbContract.ComboLegValue | src/ib/contract.rs:63-76 | a leg is laid out as a record of eight fields |
| IbContract.ComboLegRoundTrip | src/ib/contract.rs:63-76 | a leg's layout reads back as the leg |
| IbContract.ComboLegsValue | src/ib/contract.rs:27 | the legs are laid out as a list, item `i` the layout of leg `i` |
| IbContract.ComboLegsRoundTrip | src/ib/contract.rs:27 | the legs' list reads back as the legs, in order |
| IbContract.ComboLegsOfLayouts | src/ib/contract.rs:27 | items that are, one by one, leg layouts read back as those legs |
| IbContract.OptDeltaNeutralRoundTrip | src/ib/contract.rs:22 | the optional delta-neutral contract, absent or present, reads back |
| IbContract.ContractValue | src/ib/contract.rs:5-28 | a contract is laid out as a record of eighteen fields |
| IbContract.ContractRoundTrip | src/ib/contract.rs:5-28 | a contract's layout reads back as the contract, its legs and delta-neutral contract included |
| IbOrderCondition.AndOrToken | src/ib/order_condition.rs:6-11 | "a" and "o" read back as And and Or |
| IbOrderCondition.ConditionValue | src/ib/order_condition.rs:13-22 | a condition is its type's tag, then `and_or` first and its own fields after, and reads back |
| IbOrderCondition.ConditionTags | src/ib/order_condition.rs:16-21 | distinct condition kinds have distinct tags, and none has tag "2" |
| IbOrderCondition.NoConditionTwo | src/ib/order_condition.rs:16-17 | a value tagged "2" is no condition |
| IbOrder.OrderTypeToken | src/ib/order.rs:9-54 | each order type's token, multi-word renames included, reads back as it |
| IbOrder.MultiWordOrderTypes | src/ib/order.rs:16-44 | "STP LMT" and "TRAIL LMT + MKT" are single tokens with their spaces |
| IbOrder.OrderTypeTokensDistinct | src/ib/order.rs:9-54 | distinct order types have distinct tokens |
| IbOrder.ClearingIntentToken | src/ib/order.rs:57-64 | each clearing intent's token reads back as it |
| IbOrder.OriginToken | src/ib/order.rs:66-71 | each origin's token reads back as it |
| IbOrder.AuctionStrategyToken | src/ib/order.rs:73-80 | each auction strategy's token reads back as it |
| IbOrder.OpenCloseToken | src/ib/order.rs:88-94 | each open/close value's token reads back as it |
| IbOrder.OpenCloseAlias | src/ib/order.rs:91 | "?" reads as `None`, which is written as "" |
| IbOrder.DefaultOrder | src/ib/order.rs:96-322 | the default order has exempt code -1, `transmit` set, and zero, empty or absent fields elsewhere |
| IbOrder.DefaultOrderState | src/ib/order.rs:324-347 | the default state has an empty status and warning and no commission |
| IbMessage.HelloTokens | src/ib/message.rs:6-10 | the handshake reply is two tokens: the version's digits, then the connection time |
| IbMessage.ReadHello | src/ib/message.rs:6-10 | those two tokens decode to the reply, using exactly their bytes |
| IbMessage.ContractOfPositionData | src/ib/message.rs:70-87 | the position contract keeps its eleven fields, leaves the rest default, and projects back |
| IbMessage.PositionDataDefaultsElsewhere | src/ib/message.rs:84 | every field the position record does not carry is the default contract's |
| IbMessage.PositionDataExactly | src/ib/message.rs:70-87 | a contract is a converted position contract exactly when its other fields are default |
| IbMessage.ContractOfPortfolioValue | src/ib/message.rs:104-121 | the portfolio contract keeps its eleven fields, `primary_exch` among them, and projects back |
| IbMessage.PortfolioValueDefaultsElsewhere | src/ib/message.rs:118 | every field the portfolio record does not carry is the default contract's |
| IbMessage.ExchangesDiffer | src/ib/message.rs:70-121 | the two reduced records give the same contract only when both exchanges are empty |
| IbMessage.DefaultOpenOrder | src/ib/message.rs:129-135 | the default open order is made of the three defaults |
| IbMessage.MessageTag | src/ib/message.rs:12-39 | every known message has a tag from the table; the unknown message has no message number |
| IbMessage.Dispatch | src/ib/message.rs:12-39 | a tag selects no variant exactly when it is neither a message number nor the name "UnknownMessage", and only that name selects the unknown message |
| IbMessage.NoCatchAll | src/ib/message.rs:37-38 | a raw tag such as "10" is refused, not kept as an unknown message |
| IbMessage.DispatchOfTag | src/ib/message.rs:12-39 | each message's tag, its number or the unknown message's name, selects its own kind |
| IbMessage.MessageTagsDistinct | src/ib/message.rs:14-35 | equal tags mean the same kind of message |
| IbMessage.Decode61 | src/ib/message.rs:41-53 | message 61 becomes a position message whose reduced contract is restored |
| IbMessage.PositionDataContractValue | src/ib/message.rs:55-68 | the reduced contract is laid out as a record of eleven fields |
| IbMessage.PositionDataContractRoundTrip | src/ib/message.rs:55-68 | the reduced contract's layout reads back as it |
| IbMessage.Message61Value | src/ib/message.rs:42-49 | message 61 is five fields, the third the reduced contract's layout |
| IbMessage.Message61RoundTrip | src/ib/message.rs:42-49 | message 61's layout reads back as the message |
| IbMessage.Message61Panics | src/ib/message.rs:41-53 | a remark on the de.rs deserializer alone: it panics at message 61's first field, an `i32`; the program reaches a deserializer only through `new_v100plus`, which is not part of this model |
| IbRequest.RequestDiscriminant | src/ib/request.rs:8-23 | every request but `None` is renamed to a message number and version |
| IbRequest.VariantName | src/ib/request.rs:10-22 | the variant name is Latin text, and `None` keeps its own name |
| IbRequest.VariantNamesDistinct | src/ib/request.rs:10-22 | equal variant names mean the same kind of request |
| IbRequest.FusedInjective | src/ib/request.rs:11-21 | a fused name determines both the number and the version |
| IbRequest.FusedIsTwoTokens | src/ib/request.rs:6 | written as one token, a fused name is the number's token and then the version's |
| IbRequest.FusedReadsAsTwo | src/ib/request.rs:6 | a reader gets the number from one `read_string` and the version from the next |
| IbRequest.FusedSpellings | src/ib/request.rs:11-21 | the fused names are spelled as the renames write them |
| IbTypes.TagValueValue | src/ib/types.rs:253-257 | a tag-value pair is its two strings, and reads back |
| IbRequest.TagValueListValue | src/ib/request.rs:37 | the options are a list, item `i` the layout of option `i` |
| IbRequest.TagValueListRoundTrip | src/ib/request.rs:37 | the options' list reads back as the options, in order |
| IbRequest.TagValuesOfLayouts | src/ib/request.rs:37 | items that are, one by one, option layouts read back as those options |
| IbRequest.MktDataValue | src/ib/request.rs:25-39 | market data is eight fields: the ticker, the contract, its legs again, the delta-neutral flag, then the rest |
| IbRequest.MktDataRoundTrip | src/ib/request.rs:25-39 | the eight fields read back as the request, the legs and the flag agreeing with the contract |
| IbRequest.MktDataOmitsDeltaNeutralBody | src/ib/request.rs:26-33 | after the contract only the flag is sent, so two present delta-neutral contracts give the same fields there; the contract's own layout still carries the delta-neutral contract |
| IbRequest.RequestValue | src/ib/request.rs:8-39 | every request is its variant name and its fields, and reads back as the request |
| ProtocolOrder.DeltaNeutralOrderTypeOfToken | src/protocol/order.rs:292-297 | only "None" is understood as the delta-neutral order type |
| ProtocolOrder.EmptyStringOfToken | src/protocol/order.rs:430-433 | only the empty token is understood |
| ProtocolOrder.DeltaNeutralValue | src/protocol/order.rs:360-364 | the tag is "1" with the contract after it, or "0" with nothing; the layout reads back |
| ProtocolOrder.DeltaNeutralFlag | src/protocol/order.rs:360-364 | whatever is decoded, a contract is present exactly when the tag was "1" |
| ProtocolOrder.UnwrapOrZero | src/protocol/order.rs:122 | `unwrap_or_default` keeps a present `i32` and gives 0 for an absent one |
| ProtocolOrder.OpenOrderFrom | src/protocol/order.rs:68-219 | the step-by-step conversion yields `ConvertedOpenOrder` |
| ProtocolOrderFacts.ConvertedDisplaySize | src/protocol/order.rs:122 | the display size is the sent one, or 0 when absent |
| ProtocolOrderFacts.ConvertedDeltaNeutralConId | src/protocol/order.rs:138-139 | the delta-neutral contract id is the sent one, or 0 when absent |
| ProtocolOrderFacts.ConvertedDeltaNeutralOrderType | src/protocol/order.rs:136 | the delta-neutral order type is always "None" |
| ProtocolOrderFacts.TrailStopPriceOverwritten | src/protocol/order.rs:149-150 | the trail stop price is the adjusted one from line 205; the trail parameters' price has no effect; the trailing percent is kept |
| ProtocolOrderFacts.ConvertedDeltaNeutral | src/protocol/order.rs:168-170 | the contract has a delta-neutral contract exactly when the message did, and it is that one |
| ProtocolOrderFacts.DeltaNeutralContractFromFlag | src/protocol/order.rs:168-170 | the contract has a delta-neutral contract exactly when the message's flag was "1" |
| ProtocolOrderFacts.ConvertedAlgo | src/protocol/order.rs:171-174 | a sent algorithm sets the strategy and its parameters; without one they stay "" and empty |
| ProtocolOrderFacts.UnassignedOrderFieldsDefault | src/protocol/order.rs:70-72 | the order fields the conversion never assigns, `transmit` among them, keep the default order's values |
| ProtocolOrderFacts.UnassignedScaleFieldsDefault | src/protocol/order.rs:158-161 | only the two scale sizes are copied; the price increment and the other scale fields stay default |
| ProtocolOrderFacts.UnassignedConditionFieldsDefault | src/protocol/order.rs:196-201 | `conditions_ignore_rth` and `conditions_cancel_order`, which the conversion leaves unassigned, stay default |
| ProtocolOrderFacts.UnassignedPegFieldsDefault | src/protocol/order.rs:70-72 | the reference contract and pegged-change fields, which the message does not carry, stay default |
| ProtocolOrderFacts.UnassignedMifid2FieldsDefault | src/protocol/order.rs:70-72 | the four MiFID II fields, which the message does not carry, stay default |
| ProtocolOrderFacts.ConvertedStateFields | src/protocol/order.rs:176-192 | the state's status, commission and warning come from the what-if report; the completion fields stay default |
| ProtocolOrderFacts.ConvertedContractFields | src/protocol/order.rs:75-85 | the contract keeps the sent identifiers and legs, and `primary_exch` stays default |
| ProtocolOrderFacts.ConvertedOrderFields | src/protocol/order.rs:74-98 | the order keeps the sent ids, order type and conditions |
| ProtocolOrderOptional.SeqAccess.NextElement | src/protocol/order.rs:462 | `next_element` hands out the next element's value or error, or nothing once the elements run out |
| ProtocolOrderOptional.VisitSeqReporting | src/protocol/order.rs:461-473 | the visitor takes at most two elements; success means the kind was a string |
| ProtocolOrderOptional.VisitSeqAsWritten | src/protocol/order.rs:461-473 | as written, every invalid length the visitor reports on error-free elements is 0 |
| ProtocolOrderOptional.VisitSeqCorrected | src/protocol/order.rs:461-473 | corrected, every invalid length the visitor reports on error-free elements is the number of elements |
| ProtocolOrderOptional.VisitSeq | src/protocol/order.rs:461-473 | as written, the visitor returns `VisitSeqAsWritten`'s result and takes just the elements it reads |
| ProtocolOrderOptional.OptionalElements | src/protocol/order.rs:435-440 | an optional type is one element when empty, two otherwise |
| ProtocolOrderOptional.VisitSeqRoundTrip | src/protocol/order.rs:461-473 | an optional type's elements visit back to it, and an empty kind leaves what follows unread |
| ProtocolOrderOptional.VisitSeqAccepted | src/protocol/order.rs:461-473 | whatever the visitor accepts is the elements of its result, with a non-empty kind for `Some` |
| ProtocolOrderOptional.CorrectedLengthCounts | src/protocol/order.rs:462-470 | corrected, running out is reported with the number of elements received |
| ProtocolOrderOptional.PayloadMissingReportsZero | src/protocol/order.rs:469-470 | as written, a kind without a value is reported as length 0 after one element was received |
| ProtocolOrderOptional.AsWrittenDiffersOnlyThere | src/protocol/order.rs:469-470 | the as-written and corrected visitors differ on that input alone |
| ProtocolOrderOptional.DecodeOptional | src/protocol/order.rs:480-481 | decoding an optional type over de.rs never moves the cursor backwards or past the data |
| ProtocolOrderOptional.DecodeOptionalVisits | src/protocol/order.rs:461-481 | over de.rs, decoding an optional type is the visitor run on the elements that deserializer supplies, which never run out |
| ProtocolOrderOptional.DecodeOptionalOfTokens | src/protocol/order.rs:435-481 | round trip: an empty token decodes to `None`; a kind's token followed by the value's tokens decodes to `Some`, using exactly those bytes |
| ProtocolOrderOptional.DecodeNoneOfToken | src/protocol/order.rs:462-467 | an empty kind's token decodes to `None` and uses just that token |
| ProtocolOrderOptional.DecodeSomeOfTokens | src/protocol/order.rs:462-472 | a non-empty kind's token followed by the value's tokens decodes to `Some` of that kind and value, using exactly those bytes |
| ProtocolOrderOptional.SomeAfterKind | src/protocol/order.rs:465-472 | once a non-empty kind has been read, the value's tokens after it make the result `Some`, ending past them |
| ProtocolOrderOptional.DecodeOptionalSome | src/protocol/order.rs:465-472 | when the kind reads back non-empty and the value then decodes, the result is `Some`, ending where the value ends |
| ProtocolOrderOptional.KindTokenRead | src/protocol/order.rs:462-463 | the kind's token reads back as the kind and leaves the cursor on what follows it |

## Left out

- I/O is modelled as data. The reader is a byte sequence with at most one
  failing position. The writer is a capacity and the error it returns
  beyond it. Concurrency, sockets and logging (`debug!`) are not modelled.
- `String::from_utf8_lossy` is modelled as one character per byte (Latin
  text); UTF-8 decoding and replacement characters are not.
- `f64` is an opaque 64-bit pattern that is only copied. No float arithmetic
  or float text is modelled.
- Protocol.ToBytes: the value must conform to a shape the de.rs
  deserializer reads (numbers, strings and records of them). So no
  `Request`, a tagged variant, reaches `ToBytes` or `ToWriter`. The error
  serializing may report is a parameter, because the serializer is not
  part of this model.
- Protocol.ToWriter: the same limit on the values it takes.
- `src/protocol/ser.rs` is not part of this model. The serializer appends
  each field's token and a NUL, as the de.rs doc comment describes the format.
- `new_v100plus`, which `from_reader` calls, is not in the shown
  deserializer. So `from_reader` is not modelled, and the derived layouts
  of `i32`, `f64`, `bool`, enums, `Option` and `Vec` fields are stated as
  serde data-model values.
- The derived serde implementations are written out by hand as layout and
  reading functions. The field name given to `deserialize_struct` is
  ignored by de.rs and is not modelled.
- Renamed identifiers: the source's `_shares_allocation`,
  `_delta_neutral_order_type` and `method` are `shares_allocation`,
  `delta_neutral_order_type` and `method_`. The last is needed because
  `method` is a keyword. `Message::OpenOrder` is `OpenOrderMsg`, because the
  name `OpenOrder` is already the open-order datatype. The `contract` field of
  `Message::PortfolioValue` is `portfolio_contract`, because a destructor is
  shared by every variant of a datatype and `PositionData`'s `contract` has
  a different type.
- The deprecated shares allocation: the conversion never reads
  `shares_allocation` (line 103). That can be seen from its definition.
  But a lemma that two messages differing only there convert alike is too
  costly for the verifier, so it is not stated.
- Grouped assignments: the source assigns one field per statement.
  The model groups consecutive assignments to the same record into one
  update, and keeps the two `if`s where the source has them.
- ProtocolOrderOptional.VisitSeqReporting: a kind element that is not a string is
  rejected with a fixed `Custom` message. Serde's exact `invalid_type`
  wording is not modelled.
- IbMessage.Dispatch: a tag the derived reader refuses is `None`; the text of
  serde's unknown-variant error is not modelled.
- `visit_map` is `unimplemented!()`, and `expecting` only formats a
  message. Neither is modelled.
- These items are declared but not used by the core, and are not modelled:
  - the enumerations TickByTickType, ComboParam, ExerciseType,
    FundamentalType, WhatToShow, BarSize, DurationUnit, DeepType, DeepSide,
    NewsType, FADataType, SecIdType, SecType, MktDataType and Method;
  - PegToBenchParams;
  - ContractDetails and ContractDescription.
- The `next` byte of the de.rs `Deserializer` is kept but never read, as in
  the source.

## Findings

| source | as written | input that shows it | evidently intended | confidence | as-written member | corrected member |
|---|---|---|---|---|---|---|
| src/protocol/mod.rs:85 | `Display` for `SequenceMustHaveLength` formats `self` with `{}`, which calls the same `fmt` again | `Error::SequenceMustHaveLength` | show its description, "sequence / map must have known length" | not executed | Protocol.DisplayAsWritten | Protocol.Display |
| src/protocol/order.rs:469-470 | a missing payload is reported as `invalid_length(0)`, although the kind was already received | the element sequence `[Ok(Str("x"))]` | `invalid_length(1)`, the number of elements received, as serde's `invalid_length` asks | not executed | ProtocolOrderOptional.PayloadMissingReportsZero | ProtocolOrderOptional.CorrectedLengthCounts |
