/** `Math.ceil(total / perPage)` for a non-negative item count. */
module PageCount {

  /** The number of pages of `perPage` items needed to hold `total` items. */
  function CeilDiv(total: nat, perPage: nat): (pages: nat)
    requires perPage > 0
    ensures pages * perPage >= total
    ensures total > 0 ==> (pages - 1) * perPage < total
    ensures pages == 0 <==> total == 0
  {
    var q := (total + perPage - 1) / perPage;
    DivBounds(total + perPage - 1, perPage);
    q
  }

  /** The quotient of Euclidean division brackets the dividend. */
  lemma DivBounds(a: nat, d: nat)
    requires d > 0
    ensures (a / d) * d <= a < (a / d) * d + d
  {
  }

  /** The page count is the least count that holds every item. */
  lemma CeilDivLeast(total: nat, perPage: nat, pages: nat)
    requires perPage > 0
    requires pages * perPage >= total
    ensures CeilDiv(total, perPage) <= pages
  {
    var c := CeilDiv(total, perPage);
    if c > pages {
      assert (c - 1) * perPage >= pages * perPage by {
        MulMonotone(pages, c - 1, perPage);
      }
    }
  }

  lemma MulMonotone(a: nat, b: nat, k: nat)
    requires a <= b
    ensures a * k <= b * k
  {
  }
}
