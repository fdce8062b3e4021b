/** The lookups the source performs on its collections: `find` by exact
    id (`===`), `find` and `Map.get` by canonical id (`String(..) ===`),
    and the `filter`s that build candidate pools. */
module Lookup {
  import opened Ids
  import opened Wrappers
  import opened Sampling
  import opened Seqs
  import opened Models

  /** The ids of a collection, in order: `xs.map((x) => x.id)`. */
  function IdsOf<T>(xs: seq<T>, id: T -> Id): (r: seq<Id>)
    ensures |r| == |xs|
    ensures forall i :: 0 <= i < |xs| ==> r[i] == id(xs[i])
  {
    seq(|xs|, i requires 0 <= i < |xs| => id(xs[i]))
  }

  function UserId(u: User): Id { u.id }
  function ProductId(p: Product): Id { p.id }
  function ThreadId(t: Thread): Id { t.id }

  function UserIds(users: seq<User>): seq<Id> { IdsOf(users, UserId) }
  function ProductIds(products: seq<Product>): seq<Id> { IdsOf(products, ProductId) }
  function ThreadIds(threads: seq<Thread>): seq<Id> { IdsOf(threads, ThreadId) }

  /** Canonically distinct ids are distinct. */
  lemma CanonDistinctIsDistinct(s: seq<Id>)
    requires CanonDistinct(s)
    ensures Distinct(s)
  {
  }

  /** `users.filter((u) => u.id !== id)`. */
  function OtherUsers(users: seq<User>, id: Id): (r: seq<User>)
    ensures forall i :: 0 <= i < |r| ==> r[i] in users && r[i].id != id
  {
    Filter(users, (u: User) => u.id != id)
  }

  /** With at least two users of distinct ids, every id leaves someone else. */
  lemma OtherUsersNonEmpty(users: seq<User>, id: Id)
    requires |users| >= 2 && Distinct(UserIds(users))
    ensures |OtherUsers(users, id)| > 0
  {
    var k := if users[0].id != id then 0 else 1;
    assert users[k].id != id;
    assert users[k] in OtherUsers(users, id);
  }

  /** `products.filter((p) => p.ownerId === owner)`. */
  function OwnedBy(products: seq<Product>, owner: Id): (r: seq<Product>)
    ensures forall i :: 0 <= i < |r| ==> r[i] in products && r[i].ownerId == owner
    ensures forall i :: 0 <= i < |products| && products[i].ownerId == owner ==> products[i] in r
  {
    Filter(products, (p: Product) => p.ownerId == owner)
  }

  /** Position of the first product whose id is exactly `id`. */
  function ProductIndex(products: seq<Product>, id: Id): (r: Option<nat>)
    ensures r.Some? ==> r.value < |products| && products[r.value].id == id
    ensures r.Some? ==> forall j :: 0 <= j < r.value ==> products[j].id != id
    ensures r.None? ==> forall j :: 0 <= j < |products| ==> products[j].id != id
  {
    if |products| == 0 then None
    else if products[0].id == id then Some(0)
    else match ProductIndex(products[1..], id)
      case None => None
      case Some(k) => Some(k + 1)
  }

  /** The owner of the product with the given id, if there is one. */
  function OwnerOf(products: seq<Product>, id: Id): Option<Id> {
    match ProductIndex(products, id)
    case None => None
    case Some(k) => Some(products[k].ownerId)
  }

  /** With distinct product ids, a product's id leads back to its owner. */
  lemma OwnerOfMember(products: seq<Product>, k: nat)
    requires k < |products| && Distinct(ProductIds(products))
    ensures OwnerOf(products, products[k].id) == Some(products[k].ownerId)
  {
    var i := ProductIndex(products, products[k].id);
    assert i.Some?;
    assert ProductIds(products)[i.value] == ProductIds(products)[k];
  }

  /** Two product sequences with the same ids and owners position by
      position answer every ownership question alike. */
  predicate SameOwnership(ps: seq<Product>, qs: seq<Product>) {
    && |ps| == |qs|
    && forall i :: 0 <= i < |ps| ==> ps[i].id == qs[i].id && ps[i].ownerId == qs[i].ownerId
  }

  lemma {:induction false} OwnerOfFrame(ps: seq<Product>, qs: seq<Product>, id: Id)
    requires SameOwnership(ps, qs)
    ensures ProductIndex(ps, id) == ProductIndex(qs, id)
    ensures OwnerOf(ps, id) == OwnerOf(qs, id)
  {
    if |ps| > 0 {
      OwnerOfFrame(ps[1..], qs[1..], id);
    }
  }

  lemma SameOwnershipIds(ps: seq<Product>, qs: seq<Product>)
    requires SameOwnership(ps, qs)
    ensures ProductIds(ps) == ProductIds(qs)
  {
  }

  lemma {:induction false} OwnedByFrame(ps: seq<Product>, qs: seq<Product>, owner: Id)
    requires SameOwnership(ps, qs)
    ensures |OwnedBy(ps, owner)| == |OwnedBy(qs, owner)|
  {
    if |ps| > 0 {
      assert SameOwnership(ps[1..], qs[1..]);
      OwnedByFrame(ps[1..], qs[1..], owner);
    }
  }

  /** `xs.find((x) => String(x.id) === key)`, as the thread seeding looks up
      the other user and the product. */
  function FindByCanon<T(==)>(xs: seq<T>, id: T -> Id, key: string): (r: Option<T>)
    ensures r.Some? ==> r.value in xs && Canon(id(r.value)) == key
    ensures r.None? ==> forall j :: 0 <= j < |xs| ==> Canon(id(xs[j])) != key
  {
    if |xs| == 0 then None
    else if Canon(id(xs[0])) == key then Some(xs[0])
    else FindByCanon(xs[1..], id, key)
  }

  /** In a canonically distinct collection the canonical lookup of a
      member's own id finds that member. */
  lemma {:induction false} FindByCanonMember<T>(xs: seq<T>, id: T -> Id, k: nat)
    requires k < |xs| && CanonDistinct(IdsOf(xs, id))
    ensures FindByCanon(xs, id, Canon(id(xs[k]))) == Some(xs[k])
  {
    if k > 0 {
      assert Canon(id(xs[0])) != Canon(id(xs[k])) by {
        assert IdsOf(xs, id)[0] == id(xs[0]) && IdsOf(xs, id)[k] == id(xs[k]);
      }
      assert IdsOf(xs[1..], id) == IdsOf(xs, id)[1..];
      FindByCanonMember(xs[1..], id, k - 1);
    }
  }

  /** `new Map(products.map((p) => [String(p.id), p])).get(key)`: a later
      entry overwrites an earlier one, so the map holds the last product
      with that canonical id. */
  function LastProductIndexByCanon(products: seq<Product>, key: string): (r: Option<nat>)
    ensures r.Some? ==> r.value < |products| && Canon(products[r.value].id) == key
    ensures r.Some? ==> forall j :: r.value < j < |products| ==> Canon(products[j].id) != key
    ensures r.None? ==> forall j :: 0 <= j < |products| ==> Canon(products[j].id) != key
    decreases |products|
  {
    if |products| == 0 then None
    else if Canon(products[|products| - 1].id) == key then Some(|products| - 1)
    else LastProductIndexByCanon(products[..|products| - 1], key)
  }

  /** `threads.find((t) => t.id === id)`. */
  function FindThread(threads: seq<Thread>, id: Id): (r: Option<Thread>)
    ensures r.Some? ==> r.value in threads && r.value.id == id
    ensures r.None? ==> forall j :: 0 <= j < |threads| ==> threads[j].id != id
  {
    if |threads| == 0 then None
    else if threads[0].id == id then Some(threads[0])
    else FindThread(threads[1..], id)
  }

  /** With distinct thread ids, a thread's id leads back to the thread. */
  lemma {:induction false} FindThreadMember(threads: seq<Thread>, k: nat)
    requires k < |threads| && Distinct(ThreadIds(threads))
    ensures FindThread(threads, threads[k].id) == Some(threads[k])
  {
    if k > 0 {
      assert threads[0].id != threads[k].id by {
        assert ThreadIds(threads)[0] == threads[0].id && ThreadIds(threads)[k] == threads[k].id;
      }
      assert ThreadIds(threads[1..]) == ThreadIds(threads)[1..];
      FindThreadMember(threads[1..], k - 1);
    }
  }

  /** Two thread lists with the same ids and participants position by
      position answer `find` alike. */
  lemma {:induction false} FindThreadFrame(ts: seq<Thread>, rs: seq<Thread>, id: Id)
    requires |ts| == |rs|
    requires forall i :: 0 <= i < |ts| ==> rs[i].id == ts[i].id && rs[i].userIds == ts[i].userIds
    ensures ThreadIds(rs) == ThreadIds(ts)
    ensures FindThread(rs, id).Some? == FindThread(ts, id).Some?
    ensures FindThread(rs, id).Some? ==> FindThread(rs, id).value.userIds == FindThread(ts, id).value.userIds
  {
    if |ts| > 0 {
      FindThreadFrame(ts[1..], rs[1..], id);
    }
  }
}
