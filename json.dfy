/** The JSON document the analysis service answers with, as `JSON.parse`
    leaves it for the page's JavaScript: truthiness, property reads, and the
    entries `Object.entries` lists. */
module JsonValue {
  import opened Media

  /** A parsed JSON document. An object keeps its members as written,
      repeated keys included; the reads below apply `JSON.parse`'s rules. */
  datatype Json =
    | JNull
    | JBool(b: bool)
    | JNumber(n: real)
    | JString(s: string)
    | JArray(items: seq<Json>)
    | JObject(members: seq<(string, Json)>)

  /** JavaScript truthiness of a parsed JSON value: `null`, `false`, `0` and
      the empty string are falsy, every array and object is truthy. */
  predicate Truthy(j: Json)
  {
    match j
    case JNull => false
    case JBool(b) => b
    case JNumber(n) => n != 0.0
    case JString(s) => s != []
    case _ => true
  }

  /** Property access on a parsed object: when a key repeats, the last
      occurrence wins, as it does in `JSON.parse`. */
  function Member(members: seq<(string, Json)>, key: string): (r: Option<Json>)
    ensures r.None? <==> forall k :: 0 <= k < |members| ==> members[k].0 != key
    ensures r.Some? ==> exists k :: && 0 <= k < |members| && members[k] == (key, r.value)
                                    && forall j :: k < j < |members| ==> members[j].0 != key
  {
    if members == [] then None
    else if members[|members| - 1].0 == key then Some(members[|members| - 1].1)
    else Member(members[..|members| - 1], key)
  }

  /** The position of the first member with the given key, or the length
      when there is none. */
  function KeyIndex(members: seq<(string, Json)>, key: string): (i: nat)
    ensures i <= |members|
    ensures i < |members| ==> members[i].0 == key
    ensures forall j :: 0 <= j < i ==> members[j].0 != key
  {
    if members == [] || members[0].0 == key then 0
    else 1 + KeyIndex(members[1..], key)
  }

  /** `Object.entries` of a parsed object: `JSON.parse` creates a property at
      a key's first occurrence and overwrites its value at each later one,
      so there is one entry per distinct key, in the order of first
      occurrence, with the last value. */
  function ObjectEntries(members: seq<(string, Json)>): seq<(string, Json)>
  {
    if members == [] then []
    else
      var front := ObjectEntries(members[..|members| - 1]);
      var last := members[|members| - 1];
      var i := KeyIndex(front, last.0);
      if i < |front| then front[i := last] else front + [last]
  }

  /** Where a key first occurs once a member is appended: where it did
      before, else at the new member when that carries it, else nowhere. */
  lemma {:induction false} KeyIndexSnoc(a: seq<(string, Json)>, x: (string, Json))
    ensures forall k :: KeyIndex(a + [x], k) ==
              if KeyIndex(a, k) < |a| then KeyIndex(a, k) else if k == x.0 then |a| else |a| + 1
  {
    if a != [] {
      assert (a + [x])[1..] == a[1..] + [x];
      KeyIndexSnoc(a[1..], x);
    }
  }

  /** A list is its front followed by its last member. */
  lemma SplitLast(members: seq<(string, Json)>)
    requires members != []
    ensures members == members[..|members| - 1] + [members[|members| - 1]]
  {
  }

  /** The entries name each key of the object exactly once. */
  lemma {:induction false} ObjectEntriesKeys(members: seq<(string, Json)>)
    ensures var e := ObjectEntries(members);
            && |e| <= |members|
            && (forall i, j :: 0 <= i < j < |e| ==> e[i].0 != e[j].0)
            && (forall k :: KeyIndex(e, k) < |e| <==> KeyIndex(members, k) < |members|)
  {
    if members != [] {
      var front, last := members[..|members| - 1], members[|members| - 1];
      ObjectEntriesKeys(front);
      SplitLast(members);
      KeyIndexSnoc(front, last);
      var ef := ObjectEntries(front);
      if KeyIndex(ef, last.0) < |ef| {
        KeyIndexSame(ef, ef[KeyIndex(ef, last.0) := last]);
      } else {
        KeyIndexSnoc(ef, last);
      }
    }
  }

  /** Each entry carries the value a property read of its key gives, the
      last one written. */
  lemma {:induction false} ObjectEntriesValues(members: seq<(string, Json)>)
    ensures var e := ObjectEntries(members);
            forall i :: 0 <= i < |e| ==> Member(members, e[i].0) == Some(e[i].1)
  {
    if members != [] {
      var front, last := members[..|members| - 1], members[|members| - 1];
      ObjectEntriesValues(front);
      ObjectEntriesKeys(front);
    }
  }

  /** The entries follow the order in which their keys first occur. */
  lemma {:induction false} ObjectEntriesOrder(members: seq<(string, Json)>)
    ensures var e := ObjectEntries(members);
            forall i, j :: 0 <= i < j < |e| ==> KeyIndex(members, e[i].0) < KeyIndex(members, e[j].0)
  {
    if members != [] {
      var front, last := members[..|members| - 1], members[|members| - 1];
      ObjectEntriesOrder(front);
      ObjectEntriesKeys(front);
      SplitLast(members);
      KeyIndexSnoc(front, last);
    }
  }

  /** `Object.entries` of a parsed object names each key exactly once, in
      the order of first occurrence, with the value a property read gives. */
  lemma ObjectEntriesSpec(members: seq<(string, Json)>)
    ensures var e := ObjectEntries(members);
            && (forall i, j :: 0 <= i < j < |e| ==> e[i].0 != e[j].0)
            && (forall k :: KeyIndex(e, k) < |e| <==> KeyIndex(members, k) < |members|)
            && (forall i :: 0 <= i < |e| ==> Member(members, e[i].0) == Some(e[i].1))
            && (forall i, j :: 0 <= i < j < |e| ==> KeyIndex(members, e[i].0) < KeyIndex(members, e[j].0))
  {
    ObjectEntriesKeys(members);
    ObjectEntriesValues(members);
    ObjectEntriesOrder(members);
  }

  /** Replacing one entry's value keeps every key's position. */
  lemma KeyIndexSame(a: seq<(string, Json)>, b: seq<(string, Json)>)
    requires |a| == |b| && forall p :: 0 <= p < |a| ==> a[p].0 == b[p].0
    ensures forall k :: KeyIndex(a, k) == KeyIndex(b, k)
  {
    forall k
      ensures KeyIndex(a, k) == KeyIndex(b, k)
    {
    }
  }
}
