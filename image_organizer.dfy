/** Image reordering: `reorder_images` picks images by an index list,
    `display_draggable_images` hands back the identity order, and
    `create_image_arranger` sorts by area (largest or smallest first) or by
    a score (sharpness, composition, colourfulness; largest first). The
    scores themselves come from image libraries and are fields of the
    picture here; Python's `sorted` is modelled by a stable insertion sort
    on indices. */
module ImageOrganizer {
  import opened Base

  /** A picture: its size and the three scores the libraries compute for it
      (Laplacian variance, deviation of the centre region, mean saturation). */
  datatype Photo = Photo(id: nat, width: nat, height: nat, clarity: real, composition: real, saturation: real)

  datatype Criterion = Clarity | Composition | Saturation

  /** The buttons of `create_image_arranger`. */
  datatype Action =
    | Idle
    | LargestFirst     // "Önemli Olanları Öne Çıkar"
    | SmallestLast     // "Ufak Görüntüleri Sona Al"
    | Restore          // "Orijinal Sıraya Döndür"
    | AutoSort(c: Criterion)

  datatype IndexError = IndexError

  // ------------------------------------------------------------ reordering

  /** Python's `s[i]`: negative indices count from the end. */
  predicate InBounds(n: int, i: int)
  {
    -n <= i < n
  }

  function Wrap(n: int, i: int): (j: int)
    requires InBounds(n, i)
    ensures 0 <= j < n
    ensures i >= 0 ==> j == i
  {
    if i < 0 then n + i else i
  }

  /** `[images[i] for i in order]` over indices known to be in bounds. */
  function Pick<T>(s: seq<T>, order: seq<int>): (r: seq<T>)
    requires forall k :: 0 <= k < |order| ==> InBounds(|s|, order[k])
    ensures |r| == |order|
    ensures forall k :: 0 <= k < |order| ==> r[k] == s[Wrap(|s|, order[k])]
  {
    seq(|order|, k requires 0 <= k < |order| => s[Wrap(|s|, order[k])])
  }

  /** `reorder_images`: no order, or one of the wrong length, returns the
      images; otherwise the images at the order's indices, with an
      IndexError for the first index out of bounds. */
  function Reorder<T>(images: seq<T>, order: Option<seq<int>>): (r: Result<seq<T>, IndexError>)
    ensures (order.None? || |order.value| != |images|) ==> r == Ok(images)
    ensures order.Some? && |order.value| == |images| ==>
              (r.Err? <==> exists k :: 0 <= k < |images| && !InBounds(|images|, order.value[k]))
    ensures r.Ok? && order.Some? && |order.value| == |images| ==>
              |r.value| == |images|
              && forall k :: 0 <= k < |images| ==> r.value[k] == images[Wrap(|images|, order.value[k])]
  {
    if order.None? || |order.value| != |images| then Ok(images)
    else if forall k :: 0 <= k < |order.value| ==> InBounds(|images|, order.value[k])
    then Ok(Pick(images, order.value))
    else Err(IndexError)
  }

  /** `order` lists each index of a sequence of length `n` exactly once. */
  predicate IsPermutation(order: seq<int>, n: int)
  {
    |order| == n
    && (forall k :: 0 <= k < |order| ==> 0 <= order[k] < n)
    && (forall i, j :: 0 <= i < j < |order| ==> order[i] != order[j])
    && (forall x :: 0 <= x < n ==> x in order)
  }

  /** `display_draggable_images`: `list(range(len(images)))`. */
  function IdentityOrder(n: nat): (r: seq<int>)
    ensures |r| == n
    ensures forall k :: 0 <= k < n ==> r[k] == k
  {
    if n == 0 then [] else IdentityOrder(n - 1) + [n - 1]
  }

  /** The identity order is a permutation. */
  lemma IdentityPermutation(n: nat)
    ensures IsPermutation(IdentityOrder(n), n)
  {
    var r := IdentityOrder(n);
    forall x | 0 <= x < n
      ensures x in r
    {
      assert r[x] == x;
    }
  }

  /** Taking out the position of the largest index leaves a permutation of
      the smaller ones. */
  lemma DropLargest(order: seq<int>, n: int, m: int)
    requires n > 0 && IsPermutation(order, n) && 0 <= m < n && order[m] == n - 1
    ensures IsPermutation(order[..m] + order[m + 1..], n - 1)
  {
    var rest := order[..m] + order[m + 1..];
    assert forall k :: 0 <= k < |rest| ==> rest[k] == (if k < m then order[k] else order[k + 1]);
    forall k | 0 <= k < |rest|
      ensures 0 <= rest[k] < n - 1
    {
      var k' := if k < m then k else k + 1;
      assert rest[k] == order[k'] && k' != m;
    }
    forall i, j | 0 <= i < j < |rest|
      ensures rest[i] != rest[j]
    {
      var i' := if i < m then i else i + 1;
      var j' := if j < m then j else j + 1;
      assert i' < j' && rest[i] == order[i'] && rest[j] == order[j'];
    }
    forall x | 0 <= x < n - 1
      ensures x in rest
    {
      assert x in order;
      var k :| 0 <= k < |order| && order[k] == x;
      assert k != m;
      if k < m {
        assert rest[k] == x;
      } else {
        assert rest[k - 1] == x;
      }
    }
  }

  /** Picking by the position of the last index splits around its element. */
  lemma PickSplit<T>(s: seq<T>, order: seq<int>, m: int)
    requires |s| > 0 && IsPermutation(order, |s|) && 0 <= m < |s| && order[m] == |s| - 1
    ensures forall k :: 0 <= k < |order| ==> InBounds(|s|, order[k])
    ensures IsPermutation(order[..m] + order[m + 1..], |s| - 1)
    ensures multiset(Pick(s, order)) == multiset(Pick(s[..|s| - 1], order[..m] + order[m + 1..])) + multiset{s[|s| - 1]}
  {
    DropLargest(order, |s|, m);
    var p := Pick(s, order);
    PickWithout(s, order, m);
    assert p == p[..m] + [p[m]] + p[m + 1..];
    MultisetSplit(p, p[..m], p[m + 1..], s[|s| - 1]);
  }

  /** Picking by the order without the last index's position yields the
      picks around it. */
  lemma PickWithout<T>(s: seq<T>, order: seq<int>, m: int)
    requires |s| > 0 && IsPermutation(order, |s|) && 0 <= m < |s| && order[m] == |s| - 1
    requires IsPermutation(order[..m] + order[m + 1..], |s| - 1)
    ensures Pick(s, order)[m] == s[|s| - 1]
    ensures Pick(s, order)[..m] + Pick(s, order)[m + 1..] == Pick(s[..|s| - 1], order[..m] + order[m + 1..])
  {
    var p, init, rest := Pick(s, order), s[..|s| - 1], order[..m] + order[m + 1..];
    var q := Pick(init, rest);
    var left := p[..m] + p[m + 1..];
    forall k | 0 <= k < |rest|
      ensures left[k] == q[k]
    {
      if k < m {
        assert rest[k] == order[k];
      } else {
        assert rest[k] == order[k + 1];
      }
    }
  }

  /** Picking by a permutation rearranges without losing or duplicating:
      the result is a permutation of the sequence. */
  lemma {:induction false} PickPermutation<T>(s: seq<T>, order: seq<int>)
    requires IsPermutation(order, |s|)
    ensures forall k :: 0 <= k < |order| ==> InBounds(|s|, order[k])
    ensures multiset(Pick(s, order)) == multiset(s)
    decreases |s|
  {
    if |s| > 0 {
      var n := |s|;
      assert n - 1 in order;
      var m :| 0 <= m < |order| && order[m] == n - 1;
      var rest := order[..m] + order[m + 1..];
      var init := s[..n - 1];
      PickSplit(s, order, m);
      PickPermutation(init, rest);
      assert s == init + [s[n - 1]];
      assert multiset(s) == multiset(init) + multiset{s[n - 1]};
    }
  }

  lemma MultisetSplit<T>(p: seq<T>, left: seq<T>, right: seq<T>, x: T)
    requires p == left + [x] + right
    ensures multiset(p) == multiset(left + right) + multiset{x}
  {
  }

  /** Reordering by a permutation returns a permutation of the images, and
      by the identity order returns the images themselves. */
  lemma ReorderPermutation<T>(images: seq<T>, order: seq<int>)
    requires IsPermutation(order, |images|)
    ensures Reorder(images, Some(order)).Ok?
    ensures multiset(Reorder(images, Some(order)).value) == multiset(images)
    ensures order == IdentityOrder(|images|) ==> Reorder(images, Some(order)) == Ok(images)
  {
    PickPermutation(images, order);
    IdentityPermutation(|images|);
    if order == IdentityOrder(|images|) {
      assert Pick(images, order) == images;
    }
  }

  // --------------------------------------------------------------- sorting

  /** Where `sorted(range(n), key, reverse)` puts `i` before `j`: by key,
      and by position for equal keys, since the sort is stable (also with
      `reverse=True`). */
  predicate Before(keys: seq<real>, descending: bool, i: int, j: int)
  {
    0 <= i < |keys| && 0 <= j < |keys|
    && if keys[i] == keys[j] then i < j
       else if descending then keys[i] > keys[j] else keys[i] < keys[j]
  }

  predicate InRange(keys: seq<real>, l: seq<int>)
  {
    forall k :: 0 <= k < |l| ==> 0 <= l[k] < |keys|
  }

  predicate SortedBy(keys: seq<real>, descending: bool, l: seq<int>)
  {
    forall a, b :: 0 <= a < b < |l| ==> Before(keys, descending, l[a], l[b])
  }

  function Insert(keys: seq<real>, descending: bool, x: int, l: seq<int>): (r: seq<int>)
    requires 0 <= x < |keys| && InRange(keys, l)
    ensures InRange(keys, r) && |r| == |l| + 1
  {
    if l == [] || Before(keys, descending, x, l[0]) then [x] + l
    else [l[0]] + Insert(keys, descending, x, l[1..])
  }

  /** Inserting adds exactly the one index. */
  lemma {:induction false} InsertMembers(keys: seq<real>, descending: bool, x: int, l: seq<int>)
    requires 0 <= x < |keys| && InRange(keys, l)
    ensures forall y :: y in Insert(keys, descending, x, l) <==> y == x || y in l
    decreases |l|
  {
    if !(l == [] || Before(keys, descending, x, l[0])) {
      InsertMembers(keys, descending, x, l[1..]);
      assert l == [l[0]] + l[1..];
    }
  }

  /** `sorted(range(n), key=lambda i: keys[i], reverse=descending)`. */
  function SortedOrder(keys: seq<real>, descending: bool, n: nat): (r: seq<int>)
    requires n <= |keys|
    ensures InRange(keys, r) && |r| == n
  {
    if n == 0 then [] else Insert(keys, descending, n - 1, SortedOrder(keys, descending, n - 1))
  }

  lemma {:induction false} InsertSorted(keys: seq<real>, descending: bool, x: int, l: seq<int>)
    requires 0 <= x < |keys| && InRange(keys, l) && x !in l
    requires SortedBy(keys, descending, l)
    ensures SortedBy(keys, descending, Insert(keys, descending, x, l))
    decreases |l|
  {
    var r := Insert(keys, descending, x, l);
    if l == [] || Before(keys, descending, x, l[0]) {
      forall a, b | 0 <= a < b < |r|
        ensures Before(keys, descending, r[a], r[b])
      {
        if a == 0 && b > 1 {
          BeforeTransitive(keys, descending, x, l[0], l[b - 1]);
        }
      }
    } else {
      assert l == [l[0]] + l[1..];
      InsertSorted(keys, descending, x, l[1..]);
      var tail := Insert(keys, descending, x, l[1..]);
      InsertMembers(keys, descending, x, l[1..]);
      forall a, b | 0 <= a < b < |r|
        ensures Before(keys, descending, r[a], r[b])
      {
        if a == 0 {
          assert r[b] == tail[b - 1];
          assert r[b] in tail;
          if r[b] == x {
            assert x != l[0];
          } else {
            var c :| 0 <= c < |l[1..]| && l[1..][c] == r[b];
            assert l[c + 1] == r[b];
          }
        }
      }
    }
  }

  lemma BeforeTransitive(keys: seq<real>, descending: bool, i: int, j: int, k: int)
    requires Before(keys, descending, i, j) && Before(keys, descending, j, k)
    ensures Before(keys, descending, i, k)
  {
  }

  /** The sorted order of the first `n` indices holds exactly the indices below `n`. */
  lemma {:induction false} SortedOrderMembers(keys: seq<real>, descending: bool, n: nat)
    requires n <= |keys|
    ensures forall x :: x in SortedOrder(keys, descending, n) <==> 0 <= x < n
    decreases n
  {
    if n > 0 {
      SortedOrderMembers(keys, descending, n - 1);
      InsertMembers(keys, descending, n - 1, SortedOrder(keys, descending, n - 1));
    }
  }

  lemma {:induction false} SortedOrderSorted(keys: seq<real>, descending: bool, n: nat)
    requires n <= |keys|
    ensures SortedBy(keys, descending, SortedOrder(keys, descending, n))
    decreases n
  {
    if n > 0 {
      var prev := SortedOrder(keys, descending, n - 1);
      SortedOrderSorted(keys, descending, n - 1);
      SortedOrderFresh(keys, descending, n - 1);
      InsertSorted(keys, descending, n - 1, prev);
    }
  }

  /** Index `n` is not yet among the first `n` ordered indices. */
  lemma SortedOrderFresh(keys: seq<real>, descending: bool, n: nat)
    requires n <= |keys|
    ensures n !in SortedOrder(keys, descending, n)
  {
    SortedOrderMembers(keys, descending, n);
  }

  /** The sorted order is a permutation of the indices, ordered by key with
      ties kept in their original order. */
  lemma SortedOrderFacts(keys: seq<real>, descending: bool, n: nat)
    requires n <= |keys|
    ensures IsPermutation(SortedOrder(keys, descending, n), n)
    ensures SortedBy(keys, descending, SortedOrder(keys, descending, n))
  {
    var r := SortedOrder(keys, descending, n);
    SortedOrderSorted(keys, descending, n);
    SortedOrderMembers(keys, descending, n);
    forall k | 0 <= k < |r|
      ensures 0 <= r[k] < n
    {
      assert r[k] in r;
    }
    forall i, j | 0 <= i < j < |r|
      ensures r[i] != r[j]
    {
      assert Before(keys, descending, r[i], r[j]);
    }
  }

  // -------------------------------------------------------------- arranger

  /** `img.width * img.height`. */
  function Area(p: Photo): real
  {
    (p.width * p.height) as real
  }

  function Score(p: Photo, c: Criterion): real
  {
    match c
    case Clarity => p.clarity
    case Composition => p.composition
    case Saturation => p.saturation
  }

  /** The key list of a sort: the areas, or one score per picture. */
  function KeysOf(images: seq<Photo>, byArea: bool, c: Criterion): (keys: seq<real>)
    ensures |keys| == |images|
  {
    seq(|images|, i requires 0 <= i < |images| => if byArea then Area(images[i]) else Score(images[i], c))
  }

  /** The score loops of the automatic modes, and the area list. */
  method ComputeKeys(images: seq<Photo>, byArea: bool, c: Criterion) returns (keys: seq<real>)
    ensures keys == KeysOf(images, byArea, c)
  {
    keys := [];
    for i := 0 to |images|
      invariant keys == KeysOf(images[..i], byArea, c)
    {
      keys := keys + [if byArea then Area(images[i]) else Score(images[i], c)];
    }
    assert images[..|images|] == images;
  }

  /** The rows and columns of the centre region of the composition score:
      `[h//4, 3h//4)` and `[w//4, 3w//4)`. */
  function CentreRegion(h: nat, w: nat): (r: (nat, nat, nat, nat))
    ensures r.0 <= r.1 <= h && r.2 <= r.3 <= w
    ensures h >= 2 ==> r.0 < r.1
    ensures w >= 2 ==> r.2 < r.3
    ensures h % 4 == 0 ==> r.1 - r.0 == h / 2 && r.0 == h - r.1
    ensures w % 4 == 0 ==> r.3 - r.2 == w / 2 && r.2 == w - r.3
  {
    (h / 4, 3 * h / 4, w / 4, 3 * w / 4)
  }

  /** `create_image_arranger`: the pictures in their new order and whether a
      button fired. */
  method ArrangeImages(images: seq<Photo>, action: Action) returns (result: seq<Photo>, changed: bool)
    ensures changed <==> action != Idle
    ensures action == Idle || action == Restore ==> result == images
    ensures action == LargestFirst ==> result == Pick(images, Order(images, action))
    ensures action == SmallestLast ==> result == Pick(images, Order(images, action))
    ensures action.AutoSort? ==> result == Pick(images, Order(images, action))
  {
    match action {
      case Idle => return images, false;
      case Restore => return images, true;
      case LargestFirst =>
        var keys := ComputeKeys(images, true, Clarity);
        result := Sort(images, keys, true);
        return result, true;
      case SmallestLast =>
        var keys := ComputeKeys(images, true, Clarity);
        result := Sort(images, keys, false);
        return result, true;
      case AutoSort(c) =>
        var keys := ComputeKeys(images, false, c);
        result := Sort(images, keys, true);
        return result, true;
    }
  }

  /** The sort order a sorting button uses. */
  function Order(images: seq<Photo>, action: Action): (order: seq<int>)
    requires action != Idle && action != Restore
    ensures IsPermutation(order, |images|)
  {
    var keys := KeysOf(images, !action.AutoSort?, if action.AutoSort? then action.c else Clarity);
    SortedOrderFacts(keys, action != SmallestLast, |images|);
    SortedOrder(keys, action != SmallestLast, |images|)
  }

  /** `reorder_images(images, sorted(...))` for a key list of the right length. */
  method Sort(images: seq<Photo>, keys: seq<real>, descending: bool) returns (result: seq<Photo>)
    requires |keys| == |images|
    ensures IsPermutation(SortedOrder(keys, descending, |images|), |images|)
    ensures result == Pick(images, SortedOrder(keys, descending, |images|))
  {
    var order := SortedOrder(keys, descending, |images|);
    SortedOrderFacts(keys, descending, |images|);
    var r := Reorder(images, Some(order));
    ReorderPermutation(images, order);
    result := r.value;
  }

  /** What a sorting button promises: a permutation of the pictures, ordered
      by area (largest first, or smallest first) or by the chosen score
      (largest first), pictures with equal keys keeping their original
      relative order. */
  lemma ArrangedOrder(images: seq<Photo>, action: Action, a: int, b: int)
    requires action != Idle && action != Restore
    requires 0 <= a < b < |images|
    ensures multiset(Pick(images, Order(images, action))) == multiset(images)
    ensures var order := Order(images, action);
      var r := Pick(images, order);
      match action
      case LargestFirst => Area(r[a]) >= Area(r[b]) && (Area(r[a]) == Area(r[b]) ==> order[a] < order[b])
      case SmallestLast => Area(r[a]) <= Area(r[b]) && (Area(r[a]) == Area(r[b]) ==> order[a] < order[b])
      case AutoSort(c) => Score(r[a], c) >= Score(r[b], c) && (Score(r[a], c) == Score(r[b], c) ==> order[a] < order[b])
      case _ => true
  {
    var keys := KeysOf(images, !action.AutoSort?, if action.AutoSort? then action.c else Clarity);
    SortedOrderFacts(keys, action != SmallestLast, |images|);
    PickPermutation(images, Order(images, action));
    var order := Order(images, action);
    assert Before(keys, action != SmallestLast, order[a], order[b]);
  }
}
