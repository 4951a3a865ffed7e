/**
 * The `DataSet` contract: a collection of data elements keyed by uuid. The
 * contract is abstract; here its state is the uuid-to-element map itself, and
 * each operation is specified against that map.
 */
module DataSets {
  import opened Wrappers

  /** The identifier of a data element. */
  type Uuid = string

  /** A data element: its uuid, its content type and its bytes. */
  datatype DataElement = DataElement(uuid: Uuid, contentType: string, content: seq<bv8>)

  /** `KeyError`: the uuid does not refer to an element of the set. */
  datatype DataSetError = KeyError(uuid: Uuid)

  class DataSet {
    /** The elements of the set, by uuid. */
    var elements: map<Uuid, DataElement>

    /** Each element is filed under its own uuid. */
    ghost predicate Valid()
      reads this
    {
      forall u :: u in elements ==> elements[u].uuid == u
    }

    /** An empty data set. */
    constructor ()
      ensures Valid() && elements == map[]
    {
      elements := map[];
    }

    /** `count`: the number of elements in the set. */
    method Count() returns (n: nat)
      ensures n == |elements.Keys|
    {
      n := |elements|;
    }

    /** `uuids`: the uuids of the elements in the set. */
    method Uuids() returns (ids: set<Uuid>)
      ensures ids == elements.Keys
    {
      ids := elements.Keys;
    }

    /** `has_uuid`: whether the uuid is one of `uuids()`. */
    method HasUuid(uuid: Uuid) returns (has: bool)
      ensures has <==> uuid in elements.Keys
    {
      has := uuid in elements;
    }

    /** `add_data`: insert the element under its uuid, replacing any element already there. */
    method AddData(elem: DataElement)
      requires Valid()
      modifies this
      ensures Valid()
      ensures elements == old(elements)[elem.uuid := elem]
    {
      elements := elements[elem.uuid := elem];
    }

    /** `get_data`: the element the uuid refers to, or `KeyError`. */
    method GetData(uuid: Uuid) returns (r: Result<DataElement, DataSetError>)
      ensures uuid in elements ==> r == Success(elements[uuid])
      ensures uuid !in elements ==> r == Failure(KeyError(uuid))
      ensures Valid() && r.Success? ==> r.value.uuid == uuid
    {
      if uuid !in elements {
        return Failure(KeyError(uuid));
      }
      return Success(elements[uuid]);
    }
  }

  /** After `add_data(e)`, `has_uuid(e.uuid())` holds and `get_data` returns `e`. */
  method AddThenFind(ds: DataSet, elem: DataElement) returns (has: bool, r: Result<DataElement, DataSetError>)
    requires ds.Valid()
    modifies ds
    ensures has && r == Success(elem)
  {
    ds.AddData(elem);
    has := ds.HasUuid(elem.uuid);
    r := ds.GetData(elem.uuid);
  }

  /**
   * Adding a second element with the same uuid keeps the count and replaces
   * the element that `get_data` returns.
   */
  method AddSameUuidTwice(ds: DataSet, first: DataElement, second: DataElement)
    returns (countAfterFirst: nat, countAfterSecond: nat, r: Result<DataElement, DataSetError>)
    requires ds.Valid() && first.uuid == second.uuid
    modifies ds
    ensures countAfterSecond == countAfterFirst
    ensures r == Success(second)
  {
    ds.AddData(first);
    countAfterFirst := ds.Count();
    ds.AddData(second);
    countAfterSecond := ds.Count();
    assert ds.elements.Keys == old(ds.elements).Keys + {first.uuid};
    r := ds.GetData(second.uuid);
  }

  /** Looking up a uuid that was never added fails with `KeyError`. */
  method MissingUuidIsKeyError(uuid: Uuid) returns (has: bool, r: Result<DataElement, DataSetError>)
    ensures !has && r == Failure(KeyError(uuid))
  {
    var ds := new DataSet();
    has := ds.HasUuid(uuid);
    r := ds.GetData(uuid);
  }
}
