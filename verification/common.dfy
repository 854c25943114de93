/**
 * Small shared vocabulary: optional values, the outcome of a call into a
 * collaborator that may raise, and first-match search over a table.
 */
module Common {

  datatype Option<T> = None | Some(value: T)
  {
    function GetOr(default: T): T
    {
      match this
      case Some(v) => v
      case None => default
    }
  }

  /** The outcome of a call into code outside the model (a gateway, an HTTP
      client, the database driver): it returned a value or it raised. */
  datatype Call<T> = Returned(value: T) | Raised(message: string)

  /** The answer of an endpoint: a value, or an HTTP error status with the
      reason behind it. */
  datatype Reply<T, C> = Ok(value: T) | Fail(status: int, cause: C)

  /** Python truthiness of an optional string column: None and "" are false. */
  predicate Truthy(o: Option<string>)
  {
    o.Some? && o.value != ""
  }

  /** Python's `a or b` on optional strings. */
  function OrElse(a: Option<string>, b: Option<string>): (r: Option<string>)
    ensures Truthy(a) ==> r == a
    ensures !Truthy(a) ==> r == b
  {
    if Truthy(a) then a else b
  }

  /** The position of the row that `.first()` returns: the first one in table
      order that satisfies the filter. */
  function FirstIndex<T>(s: seq<T>, p: T -> bool): (r: Option<nat>)
    ensures r.Some? ==> r.value < |s| && p(s[r.value])
    ensures r.Some? ==> forall k :: 0 <= k < r.value ==> !p(s[k])
    ensures r.None? <==> forall k :: 0 <= k < |s| ==> !p(s[k])
  {
    if |s| == 0 then None
    else if p(s[0]) then Some(0)
    else
      match FirstIndex(s[1..], p)
      case None => None
      case Some(i) => Some(i + 1)
  }

  /** `.first()` itself: the first row that satisfies the filter. */
  function First<T>(s: seq<T>, p: T -> bool): (r: Option<T>)
    ensures r.Some? <==> exists k :: 0 <= k < |s| && p(s[k])
    ensures r.Some? ==> r.value in s && p(r.value)
  {
    match FirstIndex(s, p)
    case None => None
    case Some(i) => Some(s[i])
  }

  /** The rows that satisfy a filter, in table order. */
  function Filter<T>(s: seq<T>, p: T -> bool): (r: seq<T>)
    ensures |r| <= |s|
    ensures forall k :: 0 <= k < |r| ==> r[k] in s && p(r[k])
    ensures forall k :: 0 <= k < |s| && p(s[k]) ==> s[k] in r
  {
    if |s| == 0 then []
    else if p(s[0]) then [s[0]] + Filter(s[1..], p)
    else Filter(s[1..], p)
  }

  /** `query.count()`. */
  function Count<T>(s: seq<T>, p: T -> bool): nat
  {
    |Filter(s, p)|
  }

  /** A filter that no row satisfies keeps nothing. */
  lemma {:induction false} FilterNone<T>(s: seq<T>, p: T -> bool)
    requires forall k :: 0 <= k < |s| ==> !p(s[k])
    ensures Filter(s, p) == []
  {
    if |s| > 0 {
      FilterNone(s[1..], p);
    }
  }

  lemma {:induction false} FilterAppend<T>(a: seq<T>, b: seq<T>, p: T -> bool)
    ensures Filter(a + b, p) == Filter(a, p) + Filter(b, p)
  {
    if |a| == 0 {
      assert a + b == b;
    } else {
      assert (a + b)[1..] == a[1..] + b;
      FilterAppend(a[1..], b, p);
    }
  }

  /** Counting splits over a concatenation of tables, so a row appended to a
      table adds exactly one to every count whose filter it satisfies. */
  lemma CountAppend<T>(a: seq<T>, b: seq<T>, p: T -> bool)
    ensures Count(a + b, p) == Count(a, p) + Count(b, p)
  {
    FilterAppend(a, b, p);
  }

  /** A count is the whole table exactly when every row satisfies the
      filter. */
  lemma {:induction false} CountAllIff<T>(s: seq<T>, p: T -> bool)
    ensures Count(s, p) == |s| <==> forall k :: 0 <= k < |s| ==> p(s[k])
  {
    if |s| > 0 {
      CountAllIff(s[1..], p);
      assert Count(s[1..], p) <= |s[1..]|;
      if forall k :: 0 <= k < |s| - 1 ==> p(s[1..][k]) {
        assert forall k :: 1 <= k < |s| ==> p(s[k]) by {
          forall k | 1 <= k < |s|
            ensures p(s[k])
          {
            assert s[k] == s[1..][k - 1];
          }
        }
      }
    }
  }

  /** A count is zero exactly when no row satisfies the filter. */
  lemma CountNoneIff<T>(s: seq<T>, p: T -> bool)
    ensures Count(s, p) == 0 <==> forall k :: 0 <= k < |s| ==> !p(s[k])
  {
    if Count(s, p) > 0 {
      var r := Filter(s, p);
      assert r[0] in s && p(r[0]);
    }
  }

  /** Rows that agree on the filter give the same count. */
  lemma {:induction false} CountSame<T>(s: seq<T>, s': seq<T>, p: T -> bool)
    requires |s'| == |s|
    requires forall k :: 0 <= k < |s| ==> p(s'[k]) == p(s[k])
    ensures Count(s', p) == Count(s, p)
  {
    if |s| > 0 {
      CountSame(s[1..], s'[1..], p);
    }
  }

  /** Removing one row lowers the count by one exactly when that row
      satisfied the filter. */
  lemma CountRemoveAt<T>(s: seq<T>, k: nat, p: T -> bool)
    requires k < |s|
    ensures Count(RemoveAt(s, k), p) + (if p(s[k]) then 1 else 0) == Count(s, p)
  {
    assert s == s[..k] + ([s[k]] + s[k + 1..]);
    CountAppend(s[..k], [s[k]] + s[k + 1..], p);
    CountAppend([s[k]], s[k + 1..], p);
    CountAppend(s[..k], s[k + 1..], p);
    assert [s[k]][1..] == [];
  }

  /** Rows that two complementary filters keep add up to the whole table. */
  lemma {:induction false} CountComplement<T>(s: seq<T>, p: T -> bool)
    ensures Count(s, p) + Count(s, x => !p(x)) == |s|
  {
    if |s| > 0 {
      CountComplement(s[1..], p);
    }
  }

  /** An UPDATE that moves every row from one value to another (the rows it
      moves satisfy `isTo` and no longer `isFrom`, every other row is kept)
      adds the moved rows to the `isTo` count and leaves none behind. */
  lemma {:induction false} CountMoved<T>(s: seq<T>, s': seq<T>, isFrom: T -> bool, isTo: T -> bool)
    requires |s'| == |s|
    requires forall k :: 0 <= k < |s| ==> !(isFrom(s[k]) && isTo(s[k]))
    requires forall k :: 0 <= k < |s| ==> if isFrom(s[k]) then isTo(s'[k]) && !isFrom(s'[k]) else s'[k] == s[k]
    ensures Count(s', isTo) == Count(s, isTo) + Count(s, isFrom)
    ensures Count(s', isFrom) == 0
  {
    if |s| > 0 {
      CountMoved(s[1..], s'[1..], isFrom, isTo);
    }
  }

  /** Removes row `k` of a table. */
  function RemoveAt<T>(s: seq<T>, k: nat): (r: seq<T>)
    requires k < |s|
    ensures |r| == |s| - 1
    ensures forall j :: 0 <= j < k ==> r[j] == s[j]
    ensures forall j :: k <= j < |r| ==> r[j] == s[j + 1]
  {
    s[..k] + s[k + 1..]
  }

  /** Removing a row takes exactly that row out of the table's contents. */
  lemma RemoveAtTakesOne<T>(s: seq<T>, k: nat)
    requires k < |s|
    ensures multiset(RemoveAt(s, k)) + multiset{s[k]} == multiset(s)
  {
    assert s == s[..k] + [s[k]] + s[k + 1..];
  }
}
