/**
  Describing a custom object: the object's metadata as the service returns it,
  with each field's `searchable` flag set from the object's searchable-field
  groups.
 */
module CustomObjects {
  import opened Wrappers
  import opened Api

  datatype RelatedObject = RelatedObject(field: string, name: string)

  datatype ObjectRelation = ObjectRelation(field: string, relatedTo: RelatedObject, relationType: string)

  datatype ObjectField = ObjectField(
    dataType: string,
    displayName: string,
    length: int,
    name: string,
    updateable: bool,
    crmManaged: bool,
    searchable: bool)

  /** An object's metadata (the two timestamps are not part of this model). */
  datatype CustomObjectMetadata = CustomObjectMetadata(
    idField: string,
    apiName: string,
    description: string,
    displayName: string,
    pluralName: string,
    fields: seq<ObjectField>,
    searchableFields: seq<seq<string>>,
    dedupeFields: seq<string>,
    relationships: seq<ObjectRelation>,
    state: string,
    version: string)

  /** The names that occur in some searchable-field group. */
  function SearchableNames(groups: seq<seq<string>>): set<string>
  {
    set k, n | 0 <= k < |groups| && n in groups[k] :: n
  }

  /** Collects the names of every searchable-field group into one set. */
  method CollectSearchable(groups: seq<seq<string>>) returns (searchable: set<string>)
    ensures forall n :: n in searchable <==> exists k :: 0 <= k < |groups| && n in groups[k]
  {
    searchable := {};
    for k := 0 to |groups|
      invariant forall n :: n in searchable <==> exists k' :: 0 <= k' < k && n in groups[k']
    {
      var group := groups[k];
      for j := 0 to |group|
        invariant forall n :: n in searchable <==> (exists k' :: 0 <= k' < k && n in groups[k']) || n in group[..j]
      {
        assert group[..j + 1] == group[..j] + [group[j]];
        searchable := searchable + {group[j]};
      }
      assert group[..|group|] == group;
    }
  }

  /** Overwrites each field's searchable flag, in place, with membership of its name in the set. */
  method MarkSearchable(fields: array<ObjectField>, searchable: set<string>)
    modifies fields
    ensures forall i :: 0 <= i < fields.Length ==>
              fields[i] == old(fields[i]).(searchable := old(fields[i]).name in searchable)
  {
    for i := 0 to fields.Length
      invariant forall k :: 0 <= k < i ==> fields[k] == old(fields[k]).(searchable := old(fields[k]).name in searchable)
      invariant forall k :: i <= k < fields.Length ==> fields[k] == old(fields[k])
    {
      var field := fields[i];
      field := field.(searchable := field.name in searchable);
      fields[i] := field;
    }
  }

  /** The object as Describe returns it: its fields marked, everything else as decoded. */
  function Marked(obj: CustomObjectMetadata): (r: CustomObjectMetadata)
    ensures r.(fields := obj.fields) == obj
    ensures |r.fields| == |obj.fields|
    ensures forall i :: 0 <= i < |r.fields| ==> r.fields[i].(searchable := obj.fields[i].searchable) == obj.fields[i]
    ensures forall i :: 0 <= i < |r.fields| ==>
              (r.fields[i].searchable <==> exists k :: 0 <= k < |obj.searchableFields| && obj.fields[i].name in obj.searchableFields[k])
  {
    var names := SearchableNames(obj.searchableFields);
    obj.(fields := seq(|obj.fields|, i requires 0 <= i < |obj.fields| =>
      obj.fields[i].(searchable := obj.fields[i].name in names)))
  }

  /** A successful Describe: the object, and the error the payload decoder reported, if any. */
  datatype Described = Described(obj: CustomObjectMetadata, decodeError: Option<string>)

  /**
    The outcome of the describe call, given its answer. The envelope's error
    list is not consulted; an empty object list is "not found" even when the
    payload decoder reported an error; otherwise the first object is marked and
    returned together with that error.
   */
  method Describe(resp: Response<seq<CustomObjectMetadata>>) returns (r: Result<Described, Error>)
    ensures resp.code != StatusOK ==> r == Err(HttpStatus(DescribeCustomObject, resp.code))
    ensures resp.code == StatusOK && resp.body.Err? ==> r == Err(Propagated(resp.body.error))
    ensures Decoded(resp) && resp.body.value.result.value == [] ==> r == Err(NotFound)
    ensures Decoded(resp) && resp.body.value.result.value != []
            ==> r == Ok(Described(Marked(resp.body.value.result.value[0]), resp.body.value.result.err))
  {
    if resp.code != StatusOK {
      return Err(HttpStatus(DescribeCustomObject, resp.code));
    }
    if resp.body.Err? {
      return Err(Propagated(resp.body.error));
    }
    var decoded := resp.body.value.result.value;
    if |decoded| == 0 {
      return Err(NotFound);
    }
    var obj := decoded[0];
    var searchable := CollectSearchable(obj.searchableFields);
    var fields := new ObjectField[|obj.fields|](i requires 0 <= i < |obj.fields| => obj.fields[i]);
    MarkSearchable(fields, searchable);
    assert searchable == SearchableNames(obj.searchableFields);
    assert fields[..] == Marked(obj).fields;
    r := Ok(Described(obj.(fields := fields[..]), resp.body.value.result.err));
  }
}
