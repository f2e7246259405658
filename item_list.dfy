/** The list transforms the page applies to its in-memory items after each call:
    tagging, replace-by-id and remove-by-id. */
module ItemList {
  import opened Items

  /** Every entry is backed by the remote store. */
  predicate AllApi(s: seq<Item>) {
    forall i :: 0 <= i < |s| ==> s[i].source == Api
  }

  /** `{ ...item, source: 'api' }` */
  function Tag(x: Item): Item {
    x.(source := Api)
  }

  /** `items.map((item) => ({ ...item, source: 'api' }))` */
  function TagApi(s: seq<Item>): (r: seq<Item>)
    ensures |r| == |s|
    ensures forall i :: 0 <= i < |s| ==> r[i] == Tag(s[i])
    ensures AllApi(r)
  {
    if s == [] then [] else [Tag(s[0])] + TagApi(s[1..])
  }

  /** Tagging a list that is already all-api (as every normalized list is) changes nothing. */
  lemma {:induction false} TagApiKeepsApiLists(s: seq<Item>)
    requires AllApi(s)
    ensures TagApi(s) == s
  {
    if s != [] {
      assert AllApi(s[1..]) by {
        forall i | 0 <= i < |s[1..]| ensures s[1..][i].source == Api {
          assert s[1..][i] == s[i + 1];
        }
      }
      TagApiKeepsApiLists(s[1..]);
    }
  }

  /** `prev.map((item) => item.id === id ? replacement : item)` */
  function ReplaceById(s: seq<Item>, id: string, replacement: Item): (r: seq<Item>)
    ensures |r| == |s|
    ensures forall i :: 0 <= i < |s| ==> r[i] == (if s[i].id == id then replacement else s[i])
  {
    if s == [] then []
    else [if s[0].id == id then replacement else s[0]] + ReplaceById(s[1..], id, replacement)
  }

  /** An api-tagged replacement keeps an all-api list all-api. */
  lemma ReplaceKeepsAllApi(s: seq<Item>, id: string, replacement: Item)
    requires AllApi(s) && replacement.source == Api
    ensures AllApi(ReplaceById(s, id, replacement))
  {
  }

  /** With no entry carrying the id, replacing is the identity. */
  lemma ReplaceMissingIdIsIdentity(s: seq<Item>, id: string, replacement: Item)
    requires forall i :: 0 <= i < |s| ==> s[i].id != id
    ensures ReplaceById(s, id, replacement) == s
  {
  }

  /** `prev.filter((item) => item.id !== id)` */
  function RemoveById(s: seq<Item>, id: string): (r: seq<Item>)
    ensures |r| <= |s|
    ensures forall i :: 0 <= i < |r| ==> r[i].id != id
  {
    if s == [] then []
    else if s[0].id == id then RemoveById(s[1..], id)
    else [s[0]] + RemoveById(s[1..], id)
  }

  /** Removing drops every copy of each entry with the id and keeps every copy of the others. */
  lemma {:induction false} RemoveCounts(s: seq<Item>, id: string)
    ensures forall x :: multiset(RemoveById(s, id))[x] == (if x.id == id then 0 else multiset(s)[x])
    ensures forall x :: x in RemoveById(s, id) <==> x in s && x.id != id
  {
    if s != [] {
      RemoveCounts(s[1..], id);
      assert s == [s[0]] + s[1..];
    }
  }

  /** Filtering distributes over concatenation, so the surviving entries keep their order. */
  lemma {:induction false} RemoveDistributes(a: seq<Item>, b: seq<Item>, id: string)
    ensures RemoveById(a + b, id) == RemoveById(a, id) + RemoveById(b, id)
  {
    if a == [] {
      assert a + b == b;
    } else {
      var ab := a + b;
      assert ab[0] == a[0] && ab[1..] == a[1..] + b;
      RemoveDistributes(a[1..], b, id);
      if a[0].id == id {
        assert RemoveById(ab, id) == RemoveById(ab[1..], id);
        assert RemoveById(a, id) == RemoveById(a[1..], id);
      } else {
        assert RemoveById(ab, id) == [a[0]] + RemoveById(ab[1..], id);
        assert RemoveById(a, id) == [a[0]] + RemoveById(a[1..], id);
      }
    }
  }

  /** With no entry carrying the id, removing is the identity. */
  lemma {:induction false} RemoveMissingIdIsIdentity(s: seq<Item>, id: string)
    requires forall i :: 0 <= i < |s| ==> s[i].id != id
    ensures RemoveById(s, id) == s
  {
    if s != [] {
      RemoveMissingIdIsIdentity(s[1..], id);
    }
  }

  /** Removing keeps an all-api list all-api. */
  lemma RemoveKeepsAllApi(s: seq<Item>, id: string)
    requires AllApi(s)
    ensures AllApi(RemoveById(s, id))
  {
    var r := RemoveById(s, id);
    RemoveCounts(s, id);
    forall i | 0 <= i < |r| ensures r[i].source == Api {
      assert r[i] in s;
    }
  }
}
