/**
 * `window.localStorage`: a map from string keys to string values. Any of its
 * three operations may be configured to throw (storage disabled, quota
 * exceeded); a throwing operation leaves the map as it was.
 */
module BrowserStorage {
  import opened Common

  datatype StorageOp = GetOp | SetOp | RemoveOp

  /** What `getItem(key)` yields on a given store: `null` for an absent key. */
  function Lookup(items: map<string, string>, failing: set<StorageOp>, key: string): (r: Result<Option<string>>)
    ensures r == Threw <==> GetOp in failing
    ensures r.Ok? ==> (r.value.Some? <==> key in items)
    ensures r.Ok? && key in items ==> r.value.value == items[key]
  {
    if GetOp in failing then Threw
    else if key in items then Ok(Some(items[key]))
    else Ok(None)
  }

  class LocalStorage {
    var items: map<string, string>
    var failing: set<StorageOp>

    constructor (items: map<string, string>, failing: set<StorageOp> := {})
      ensures this.items == items && this.failing == failing
    {
      this.items := items;
      this.failing := failing;
    }

    method GetItem(key: string) returns (r: Result<Option<string>>)
      ensures r == Lookup(items, failing, key)
    {
      if GetOp in failing {
        r := Threw;
      } else if key in items {
        r := Ok(Some(items[key]));
      } else {
        r := Ok(None);
      }
    }

    method SetItem(key: string, value: string) returns (outcome: Outcome)
      modifies this`items
      ensures outcome == Aborted <==> SetOp in failing
      ensures items == if SetOp in failing then old(items) else old(items)[key := value]
    {
      if SetOp in failing {
        outcome := Aborted;
      } else {
        items := items[key := value];
        outcome := Completed;
      }
    }

    method RemoveItem(key: string) returns (outcome: Outcome)
      modifies this`items
      ensures outcome == Aborted <==> RemoveOp in failing
      ensures items == if RemoveOp in failing then old(items) else old(items) - {key}
    {
      if RemoveOp in failing {
        outcome := Aborted;
      } else {
        items := items - {key};
        outcome := Completed;
      }
    }
  }
}
