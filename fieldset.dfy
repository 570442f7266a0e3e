/**
 * http_form_to_dict: an ordered multi-dict of submitted fields becomes a
 * dict whose value for each key is all of that key's values joined by
 * ", ", and the list of keys in order of first occurrence with the control
 * keys left out.
 */
module FieldSet {
  import opened Text

  type Field = (string, string)

  /** The keys that occur in the fields. */
  function Keys(fields: seq<Field>): set<string>
    decreases |fields|
  {
    if |fields| == 0 then {}
    else Keys(fields[..|fields| - 1]) + {fields[|fields| - 1].0}
  }

  lemma {:induction false} KeysAt(fields: seq<Field>)
    ensures forall i :: 0 <= i < |fields| ==> fields[i].0 in Keys(fields)
    ensures forall k :: k in Keys(fields) ==> exists i :: 0 <= i < |fields| && fields[i].0 == k
    decreases |fields|
  {
    if |fields| > 0 {
      var prefix := fields[..|fields| - 1];
      KeysAt(prefix);
      assert forall i :: 0 <= i < |prefix| ==> prefix[i] == fields[i];
    }
  }

  /** The values of key k, in input order. */
  function ValuesOf(fields: seq<Field>, k: string): (vs: seq<string>)
    ensures |vs| <= |fields|
    decreases |fields|
  {
    if |fields| == 0 then []
    else
      var last := fields[|fields| - 1];
      ValuesOf(fields[..|fields| - 1], k) + (if last.0 == k then [last.1] else [])
  }

  /** The keys not in `exclude`, each once, in order of first occurrence. */
  function OrderedKeys(fields: seq<Field>, exclude: seq<string>): seq<string>
    decreases |fields|
  {
    if |fields| == 0 then []
    else
      var prefix := fields[..|fields| - 1];
      var k := fields[|fields| - 1].0;
      if k in Keys(prefix) || k in exclude then OrderedKeys(prefix, exclude)
      else OrderedKeys(prefix, exclude) + [k]
  }

  /** The dict for the fields: every key mapped to its values joined by ", ". */
  function Joined(fields: seq<Field>): map<string, string> {
    map k | k in Keys(fields) :: Join(", ", ValuesOf(fields, k))
  }

  /** The position of the first field with key k. */
  ghost function FirstIndex(fields: seq<Field>, k: string): (r: nat)
    requires k in Keys(fields)
    ensures r < |fields| && fields[r].0 == k
    ensures forall j :: 0 <= j < r ==> fields[j].0 != k
  {
    KeysAt(fields);
    var i :| 0 <= i < |fields| && fields[i].0 == k;
    FirstBelow(fields, k, i)
  }

  ghost function FirstBelow(fields: seq<Field>, k: string, i: nat): (r: nat)
    requires i < |fields| && fields[i].0 == k
    ensures r <= i && fields[r].0 == k
    ensures forall j :: 0 <= j < r ==> fields[j].0 != k
  {
    if exists j :: 0 <= j < i && fields[j].0 == k then
      var j :| 0 <= j < i && fields[j].0 == k;
      FirstBelow(fields, k, j)
    else i
  }

  /**
   * The first pass of http_form_to_dict: collect each key's values and
   * record every new key that is not a control key.
   */
  method CollectValues(fields: seq<Field>, exclude: seq<string>) returns (lists: map<string, seq<string>>, orderedKeys: seq<string>)
    ensures lists.Keys == Keys(fields)
    ensures forall k :: k in lists ==> lists[k] == ValuesOf(fields, k)
    ensures orderedKeys == OrderedKeys(fields, exclude)
  {
    lists := map[];
    orderedKeys := [];
    var i := 0;
    while i < |fields|
      invariant 0 <= i <= |fields|
      invariant lists.Keys == Keys(fields[..i])
      invariant forall k :: k in lists ==> lists[k] == ValuesOf(fields[..i], k)
      invariant orderedKeys == OrderedKeys(fields[..i], exclude)
    {
      var key, value := fields[i].0, fields[i].1;
      Step(fields, i, exclude);
      AppendedStep(fields, i, lists);
      if key !in lists && key !in exclude {
        orderedKeys := orderedKeys + [key];
      }
      lists := Appended(lists, key, value);
      i := i + 1;
    }
    assert fields[..i] == fields;
  }

  /** One iteration of the first pass on the value lists: start a list for a new key, then append. */
  function Appended(lists: map<string, seq<string>>, key: string, value: string): map<string, seq<string>> {
    var started := if key in lists then lists else lists[key := []];
    started[key := started[key] + [value]]
  }

  /** The first pass keeps the value lists equal to ValuesOf of the fields read so far. */
  lemma AppendedStep(fields: seq<Field>, i: nat, lists: map<string, seq<string>>)
    requires i < |fields|
    requires lists.Keys == Keys(fields[..i])
    requires forall k :: k in lists ==> lists[k] == ValuesOf(fields[..i], k)
    ensures Appended(lists, fields[i].0, fields[i].1).Keys == Keys(fields[..i + 1])
    ensures forall k :: k in Appended(lists, fields[i].0, fields[i].1) ==>
      Appended(lists, fields[i].0, fields[i].1)[k] == ValuesOf(fields[..i + 1], k)
  {
    Step(fields, i, []);
    ValuesOfKeys(fields[..i], fields[i].0);
  }

  /** The second pass: every collected list joined by ", ". */
  method JoinValues(lists: map<string, seq<string>>) returns (ret: map<string, string>)
    ensures ret.Keys == lists.Keys
    ensures forall k :: k in ret ==> ret[k] == Join(", ", lists[k])
  {
    ret := map[];
    var remaining := lists.Keys;
    while remaining != {}
      invariant remaining <= lists.Keys
      invariant ret.Keys == lists.Keys - remaining
      invariant forall k :: k in ret ==> ret[k] == Join(", ", lists[k])
      decreases |remaining|
    {
      var r :| r in remaining;
      ret := ret[r := Join(", ", lists[r])];
      remaining := remaining - {r};
    }
  }

  /** http_form_to_dict: the joined dict and the ordered, filtered key list. */
  method HttpFormToDict(fields: seq<Field>, exclude: seq<string>) returns (ret: map<string, string>, orderedKeys: seq<string>)
    ensures ret == Joined(fields)
    ensures orderedKeys == OrderedKeys(fields, exclude)
  {
    var lists;
    lists, orderedKeys := CollectValues(fields, exclude);
    ret := JoinValues(lists);
    assert ret.Keys == Joined(fields).Keys;
  }

  /** What one more field does to the keys, the value lists and the ordered keys. */
  lemma Step(fields: seq<Field>, i: nat, exclude: seq<string>)
    requires i < |fields|
    ensures Keys(fields[..i + 1]) == Keys(fields[..i]) + {fields[i].0}
    ensures forall k :: (ValuesOf(fields[..i + 1], k) ==
      ValuesOf(fields[..i], k) + (if fields[i].0 == k then [fields[i].1] else []))
    ensures OrderedKeys(fields[..i + 1], exclude) ==
      if fields[i].0 in Keys(fields[..i]) || fields[i].0 in exclude then OrderedKeys(fields[..i], exclude)
      else OrderedKeys(fields[..i], exclude) + [fields[i].0]
  {
    var next := fields[..i + 1];
    assert next[..i] == fields[..i];
  }

  lemma {:induction false} OrderedKeysMembers(fields: seq<Field>, exclude: seq<string>)
    ensures forall k :: k in OrderedKeys(fields, exclude) <==> k in Keys(fields) && k !in exclude
    decreases |fields|
  {
    if |fields| > 0 {
      var prefix := fields[..|fields| - 1];
      OrderedKeysMembers(prefix, exclude);
      assert fields == prefix + [fields[|fields| - 1]];
      assert Keys(fields) == Keys(prefix) + {fields[|fields| - 1].0};
    }
  }

  /** No key is listed twice. */
  lemma {:induction false} OrderedKeysDistinct(fields: seq<Field>, exclude: seq<string>)
    ensures forall i, j :: 0 <= i < j < |OrderedKeys(fields, exclude)| ==>
      OrderedKeys(fields, exclude)[i] != OrderedKeys(fields, exclude)[j]
    decreases |fields|
  {
    if |fields| > 0 {
      var prefix := fields[..|fields| - 1];
      OrderedKeysDistinct(prefix, exclude);
      OrderedKeysMembers(prefix, exclude);
    }
  }

  /**
   * The listed keys are exactly the submitted keys that are not control
   * keys; the control keys are still keys of the dict.
   */
  lemma {:induction false} ExcludedKeysOnlyInDict(fields: seq<Field>, exclude: seq<string>)
    ensures forall k :: k in OrderedKeys(fields, exclude) <==> k in Keys(fields) && k !in exclude
    ensures forall k :: k in exclude && k in Keys(fields) ==> k in Joined(fields) && k !in OrderedKeys(fields, exclude)
    ensures forall k :: k in OrderedKeys(fields, exclude) ==> k in Joined(fields)
  {
    OrderedKeysMembers(fields, exclude);
  }

  lemma FirstIndexOfPrefix(fields: seq<Field>, k: string)
    requires |fields| > 0 && k in Keys(fields[..|fields| - 1])
    ensures k in Keys(fields) && FirstIndex(fields, k) == FirstIndex(fields[..|fields| - 1], k)
  {
    var prefix := fields[..|fields| - 1];
    var a, b := FirstIndex(fields, k), FirstIndex(prefix, k);
    assert forall j :: 0 <= j < |prefix| ==> prefix[j] == fields[j];
  }

  /** The listed keys appear in the order in which each first occurs in the input. */
  lemma {:induction false} OrderedKeysFirstOccurrence(fields: seq<Field>, exclude: seq<string>)
    ensures forall k :: k in OrderedKeys(fields, exclude) ==> k in Keys(fields)
    ensures forall i, j :: 0 <= i < j < |OrderedKeys(fields, exclude)| ==>
      FirstIndex(fields, OrderedKeys(fields, exclude)[i]) < FirstIndex(fields, OrderedKeys(fields, exclude)[j])
    decreases |fields|
  {
    OrderedKeysMembers(fields, exclude);
    if |fields| > 0 {
      var prefix := fields[..|fields| - 1];
      var ks := OrderedKeys(prefix, exclude);
      var all := OrderedKeys(fields, exclude);
      OrderedKeysFirstOccurrence(prefix, exclude);
      OrderedKeysMembers(prefix, exclude);
      forall i | 0 <= i < |ks| ensures FirstIndex(fields, ks[i]) == FirstIndex(prefix, ks[i]) {
        FirstIndexOfPrefix(fields, ks[i]);
      }
      if all != ks {
        var k := fields[|fields| - 1].0;
        assert all == ks + [k];
        assert k !in Keys(prefix);
        assert FirstIndex(fields, k) == |fields| - 1 by {
          KeysAt(prefix);
          assert forall j :: 0 <= j < |prefix| ==> prefix[j] == fields[j];
        }
      }
    }
  }

  /** A key submitted once keeps its value unchanged. */
  lemma {:induction false} SingleValueUnchanged(fields: seq<Field>, k: string, v: string)
    requires ValuesOf(fields, k) == [v]
    ensures k in Joined(fields) && Joined(fields)[k] == v
  {
    ValuesOfKeys(fields, k);
  }

  lemma {:induction false} ValuesOfKeys(fields: seq<Field>, k: string)
    ensures ValuesOf(fields, k) != [] <==> k in Keys(fields)
    decreases |fields|
  {
    if |fields| > 0 {
      var prefix := fields[..|fields| - 1];
      ValuesOfKeys(prefix, k);
      assert fields == prefix + [fields[|fields| - 1]];
      assert Keys(fields) == Keys(prefix) + {fields[|fields| - 1].0};
    }
  }
}
