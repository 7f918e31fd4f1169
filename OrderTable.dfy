/**
 * The `orders` table as a value: its rows, keyed by rowid, and the effect of
 * each single-row statement the handlers run on it.
 */
module OrderTable {

  /** The values the handlers ever write to the `status` column. */
  datatype Status = Created | Delivered | PickedUp

  /** One row of the `orders` table. `paid` is the 0/1 INTEGER column;
      `createdAt` is the CURRENT_TIMESTAMP text, kept opaque. */
  datatype Order = Order(
    id: int,
    clientName: string,
    pickupCode: string,
    pvz: string,
    expires: string,
    createdAt: string,
    status: Status,
    paid: bool)

  /** Rows keyed by their rowid. */
  type Table = map<int, Order>

  /** Every row is stored under its own id. */
  ghost predicate Keyed(t: Table) {
    forall k :: k in t ==> t[k].id == k
  }

  /** `UPDATE orders SET status = s WHERE id = id`: one row at most changes,
      and only in its status; an unknown id changes nothing. */
  function SetStatus(t: Table, id: int, s: Status): (r: Table)
    ensures r.Keys == t.Keys
    ensures id in t ==> r[id].status == s && r[id] == t[id].(status := s)
    ensures forall k :: k in t && k != id ==> r[k] == t[k]
  {
    if id in t then t[id := t[id].(status := s)] else t
  }

  /** `UPDATE orders SET paid = 1 WHERE id = id`. */
  function SetPaid(t: Table, id: int): (r: Table)
    ensures r.Keys == t.Keys
    ensures id in t ==> r[id].paid && r[id] == t[id].(paid := true)
    ensures forall k :: k in t && k != id ==> r[k] == t[k]
  {
    if id in t then t[id := t[id].(paid := true)] else t
  }

  lemma SetStatusPreservesKeyed(t: Table, id: int, s: Status)
    requires Keyed(t)
    ensures Keyed(SetStatus(t, id, s))
  {
  }

  lemma SetPaidPreservesKeyed(t: Table, id: int)
    requires Keyed(t)
    ensures Keyed(SetPaid(t, id))
  {
  }

  /** Setting a status twice is the same as setting the second one: the
      prior status never matters, and repeating a transition is idempotent. */
  lemma SetStatusLastWins(t: Table, id: int, s1: Status, s2: Status)
    ensures SetStatus(SetStatus(t, id, s1), id, s2) == SetStatus(t, id, s2)
  {
  }

  lemma SetPaidIdempotent(t: Table, id: int)
    ensures SetPaid(SetPaid(t, id), id) == SetPaid(t, id)
  {
  }

  /** `paid` and `status` are independent columns: the two updates commute,
      and marking paid leaves every status as it was. */
  lemma PaidIndependentOfStatus(t: Table, id: int, j: int, s: Status)
    ensures SetPaid(SetStatus(t, id, s), j) == SetStatus(SetPaid(t, j), id, s)
    ensures forall k :: k in t ==> SetPaid(t, j)[k].status == t[k].status
  {
  }

  /** The ids of a sequence of rows, as a set. */
  function Ids(s: seq<Order>): (ids: set<int>)
    ensures forall i :: 0 <= i < |s| ==> s[i].id in ids
  {
    if s == [] then {} else {s[0].id} + Ids(s[1..])
  }

  lemma {:induction false} IdsMember(s: seq<Order>, x: int)
    requires x in Ids(s)
    ensures exists i :: 0 <= i < |s| && s[i].id == x
  {
    if s[0].id != x {
      IdsMember(s[1..], x);
      var i :| 0 <= i < |s[1..]| && s[1..][i].id == x;
      assert s[i + 1].id == x;
    }
  }

  /** Strictly descending by id (so no id occurs twice). */
  ghost predicate DescendingById(s: seq<Order>) {
    forall i, j :: 0 <= i < j < |s| ==> s[i].id > s[j].id
  }

  /** Every element is the row the table holds under its id. */
  ghost predicate RowsOf(t: Table, s: seq<Order>) {
    forall i :: 0 <= i < |s| ==> s[i].id in t && t[s[i].id] == s[i]
  }

  /** The result of `SELECT * FROM orders ORDER BY id DESC`: each row once,
      highest id first. */
  ghost predicate IsListing(t: Table, s: seq<Order>) {
    RowsOf(t, s) && DescendingById(s) && Ids(s) == t.Keys
  }

  /** The rows with ids in 1..k, highest first. */
  function Listing(t: Table, k: int): (r: seq<Order>)
    requires Keyed(t)
    ensures RowsOf(t, r)
    ensures forall i :: 0 <= i < |r| ==> 1 <= r[i].id <= k
    ensures DescendingById(r)
    decreases k
  {
    if k < 1 then []
    else if k in t then [t[k]] + Listing(t, k - 1)
    else Listing(t, k - 1)
  }

  /** `Listing(t, k)` holds exactly the ids of `t` in 1..k. */
  lemma {:induction false} ListingIds(t: Table, k: int)
    requires Keyed(t)
    ensures Ids(Listing(t, k)) == set key | key in t && 1 <= key <= k
    decreases k
  {
    if k >= 1 {
      ListingIds(t, k - 1);
      var below := set key | key in t && 1 <= key <= k - 1;
      var upTo := set key | key in t && 1 <= key <= k;
      if k in t {
        assert upTo == {k} + below;
        assert Listing(t, k)[1..] == Listing(t, k - 1);
      } else {
        assert upTo == below;
      }
    }
  }

  /** A table whose ids all lie in 1..bound is listed by `Listing(t, bound)`. */
  lemma ListingIsListing(t: Table, bound: int)
    requires Keyed(t)
    requires forall k :: k in t ==> 1 <= k <= bound
    ensures IsListing(t, Listing(t, bound))
  {
    ListingIds(t, bound);
  }

  /** The listing is determined by the table: two sequences that both list
      it are equal. */
  lemma {:induction false} ListingUnique(t: Table, a: seq<Order>, b: seq<Order>)
    requires RowsOf(t, a) && DescendingById(a)
    requires RowsOf(t, b) && DescendingById(b)
    requires Ids(a) == Ids(b)
    ensures a == b
  {
    if a != [] {
      assert a[0].id in Ids(b);
      assert b != [];
      IdsMember(b, a[0].id);
      IdsMember(a, b[0].id);
      assert a[0].id == b[0].id;
      AfterHead(a);
      AfterHead(b);
      ListingUnique(t, a[1..], b[1..]);
      assert a == [a[0]] + a[1..];
      assert b == [b[0]] + b[1..];
    }
  }

  /** In a strictly descending sequence the head's id does not recur, and the
      tail is still strictly descending. */
  lemma AfterHead(s: seq<Order>)
    requires s != [] && DescendingById(s)
    ensures Ids(s[1..]) == Ids(s) - {s[0].id}
    ensures DescendingById(s[1..])
  {
    if s[0].id in Ids(s[1..]) {
      IdsMember(s[1..], s[0].id);
    }
  }
}
