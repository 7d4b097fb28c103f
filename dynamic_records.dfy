/**
  Filtering custom objects: each record of the answer is a loosely typed map.
  Decoding it promotes the record's identifier and sequence number into typed
  attributes and keeps every other key, with its value, in an open field map.
  Which raw keys the decoder binds to the two promoted attributes is a parameter.
 */
module DynamicRecords {
  import opened Wrappers
  import opened Api

  /** A decoded JSON value (numbers are integral in this model). */
  datatype Value =
    | Null
    | Bool(b: bool)
    | Number(n: int)
    | Text(s: string)
    | Array(items: seq<Value>)
    | Object(entries: map<string, Value>)

  type RawRecord = map<string, Value>

  datatype CustomObjectResult = CustomObjectResult(marketoGUID: string, sequence: int, fields: map<string, Value>)

  /** The zero value a freshly allocated result starts as. */
  const EmptyResult := CustomObjectResult("", 0, map[])

  /** The raw keys the decoder binds to the identifier and to the sequence number. */
  datatype Promotion = Promotion(guidKey: string, seqKey: string)

  /** Decodes the identifier: a string, or the zero value when absent or null; None on a type mismatch. */
  function StringField(raw: RawRecord, key: string): Option<string>
  {
    if key !in raw then Some("")
    else match raw[key]
      case Null => Some("")
      case Text(s) => Some(s)
      case _ => None
  }

  /** Decodes the sequence number: an integer, or the zero value when absent or null; None on a type mismatch. */
  function IntField(raw: RawRecord, key: string): Option<int>
  {
    if key !in raw then Some(0)
    else match raw[key]
      case Null => Some(0)
      case Number(n) => Some(n)
      case _ => None
  }

  /**
    Decodes one raw record: the promoted keys fill the typed attributes, every
    other key goes, with its value, into `fields`. A promoted value of the
    wrong type fails the record, naming each offending key in attribute order.
   */
  function DecodeRecord(raw: RawRecord, keys: Promotion): (r: Result<CustomObjectResult, Error>)
    ensures r.Ok? ==> forall k :: k in r.value.fields <==> k in raw && k != keys.guidKey && k != keys.seqKey
    ensures r.Ok? ==> forall k :: k in r.value.fields ==> r.value.fields[k] == raw[k]
    ensures r.Ok? ==> StringField(raw, keys.guidKey) == Some(r.value.marketoGUID)
    ensures r.Ok? ==> IntField(raw, keys.seqKey) == Some(r.value.sequence)
    ensures r.Ok? && keys.guidKey in raw && raw[keys.guidKey].Text? ==> r.value.marketoGUID == raw[keys.guidKey].s
    ensures r.Ok? && keys.seqKey in raw && raw[keys.seqKey].Number? ==> r.value.sequence == raw[keys.seqKey].n
    ensures r.Err? <==> StringField(raw, keys.guidKey).None? || IntField(raw, keys.seqKey).None?
    ensures r.Err? ==> r.error.FieldDecode? && r.error.keys != []
    ensures r.Err? ==> forall k :: k in r.error.keys ==> k in raw && (k == keys.guidKey || k == keys.seqKey)
    ensures r.Err? ==> forall k :: k in r.error.keys <==>
              (k == keys.guidKey && StringField(raw, k).None?) || (k == keys.seqKey && IntField(raw, k).None?)
  {
    var guid := StringField(raw, keys.guidKey);
    var sequence := IntField(raw, keys.seqKey);
    if guid.Some? && sequence.Some? then
      Ok(CustomObjectResult(guid.value, sequence.value, raw - {keys.guidKey, keys.seqKey}))
    else
      Err(FieldDecode((if guid.None? then [keys.guidKey] else []) + (if sequence.None? then [keys.seqKey] else [])))
  }

  /** One page of filter results and the token that asks for the next page. */
  datatype Page = Page(results: seq<CustomObjectResult>, nextPageToken: string)

  /** The answer got through every check before the per-record decoding. */
  predicate ReachesRecords(queryError: Option<string>, resp: Response<seq<RawRecord>>)
  {
    queryError.None? && Decoded(resp) && resp.body.value.result.err.None?
  }

  /**
    The outcome of the filter call, given the outcome of encoding its query and
    its answer: the early errors in order, then one result per raw record, in
    order, or the error of the first record that fails to decode.
   */
  method Filter(queryError: Option<string>, resp: Response<seq<RawRecord>>, keys: Promotion)
    returns (r: Result<Page, Error>)
    ensures queryError.Some? ==> r == Err(Propagated(queryError.value))
    ensures queryError.None? && resp.code != StatusOK ==> r == Err(HttpStatus(FilterLeads, resp.code))
    ensures queryError.None? && resp.code == StatusOK && resp.body.Err? ==> r == Err(Propagated(resp.body.error))
    ensures queryError.None? && Decoded(resp) && resp.body.value.result.err.Some?
            ==> r == Err(Propagated(resp.body.value.result.err.value))
    ensures ReachesRecords(queryError, resp) ==>
              var raw := resp.body.value.result.value;
              && (r.Ok? <==> forall i :: 0 <= i < |raw| ==> DecodeRecord(raw[i], keys).Ok?)
              && (r.Ok? ==> |r.value.results| == |raw|
                            && (forall i :: 0 <= i < |raw| ==> DecodeRecord(raw[i], keys) == Ok(r.value.results[i]))
                            && r.value.nextPageToken == resp.body.value.nextPageToken)
              && (r.Err? ==> exists i :: 0 <= i < |raw| && DecodeRecord(raw[i], keys) == Err(r.error)
                                         && forall j :: 0 <= j < i ==> DecodeRecord(raw[j], keys).Ok?)
  {
    if queryError.Some? {
      return Err(Propagated(queryError.value));
    }
    if resp.code != StatusOK {
      return Err(HttpStatus(FilterLeads, resp.code));
    }
    if resp.body.Err? {
      return Err(Propagated(resp.body.error));
    }
    var envelope := resp.body.value;
    if envelope.result.err.Some? {
      return Err(Propagated(envelope.result.err.value));
    }
    var raw := envelope.result.value;
    var results := new CustomObjectResult[|raw|](_ => EmptyResult);
    for i := 0 to |raw|
      invariant forall j :: 0 <= j < i ==> DecodeRecord(raw[j], keys) == Ok(results[j])
    {
      var decoded := DecodeRecord(raw[i], keys);
      if decoded.Err? {
        return Err(decoded.error);
      }
      results[i] := decoded.value;
    }
    return Ok(Page(results[..], envelope.nextPageToken));
  }

  /** The worked example: identifier and sequence are promoted, the other two keys kept. */
  lemma ExampleRecord()
    ensures DecodeRecord(
              map["marketoGUID" := Text("g1"), "seq" := Number(3), "color" := Text("red"), "size" := Text("L")],
              Promotion("marketoGUID", "seq"))
            == Ok(CustomObjectResult("g1", 3, map["color" := Text("red"), "size" := Text("L")]))
  {
    var raw := map["marketoGUID" := Text("g1"), "seq" := Number(3), "color" := Text("red"), "size" := Text("L")];
    assert raw - {"marketoGUID", "seq"} == map["color" := Text("red"), "size" := Text("L")];
  }

  /**
    The same record under the binding of field names: `marketoGUID` matches the
    identifier's name, `seq` matches nothing and stays an open field, and the
    sequence number keeps its zero value.
   */
  lemma ExampleRecordByFieldName()
    ensures DecodeRecord(
              map["marketoGUID" := Text("g1"), "seq" := Number(3), "color" := Text("red")],
              Promotion("marketoGUID", "Sequence"))
            == Ok(CustomObjectResult("g1", 0, map["seq" := Number(3), "color" := Text("red")]))
  {
    var raw := map["marketoGUID" := Text("g1"), "seq" := Number(3), "color" := Text("red")];
    assert raw - {"marketoGUID", "Sequence"} == map["seq" := Number(3), "color" := Text("red")];
  }
}
