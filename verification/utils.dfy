/** String helpers: `trimUSDT` strips the quote currency from a symbol name
    with a string-pattern `replace`, which removes the FIRST occurrence only. */
module Utils {
  import opened Types

  const Usdt: string := "USDT"

  /** "USDT" occurs in `s` starting at index `i`. */
  predicate UsdtAt(s: string, i: int) {
    0 <= i && i + |Usdt| <= |s| && s[i..i + |Usdt|] == Usdt
  }

  /** The first index at or after `from` where "USDT" occurs. */
  function FindUsdt(s: string, from: nat): (r: Option<nat>)
    decreases |s| - from
    ensures r.Some? ==> from <= r.value && UsdtAt(s, r.value)
    ensures r.Some? ==> forall j :: from <= j < r.value ==> !UsdtAt(s, j)
    ensures r.None? ==> forall j :: from <= j ==> !UsdtAt(s, j)
  {
    if from + |Usdt| > |s| then None
    else if s[from..from + |Usdt|] == Usdt then Some(from)
    else FindUsdt(s, from + 1)
  }

  /** `symbol.replace("USDT", "")`. */
  function TrimUsdt(symbol: string): (r: string)
    ensures (forall j :: !UsdtAt(symbol, j)) ==> r == symbol
    ensures forall i :: UsdtAt(symbol, i) && (forall j :: 0 <= j < i ==> !UsdtAt(symbol, j)) ==>
      r == symbol[..i] + symbol[i + |Usdt|..]
    ensures (exists i :: UsdtAt(symbol, i)) ==> |r| == |symbol| - |Usdt|
  {
    match FindUsdt(symbol, 0)
    case None => symbol
    case Some(i) => symbol[..i] + symbol[i + |Usdt|..]
  }

  /** Trimming a symbol built as base + "USDT" + rest gives back base + rest
      when the base itself has no "USDT": no occurrence can straddle the
      boundary, because "USDT" has no proper prefix that is also a suffix. */
  lemma {:induction false} TrimAppendedUsdt(base: string, rest: string)
    requires forall j :: !UsdtAt(base, j)
    ensures TrimUsdt(base + Usdt + rest) == base + rest
  {
    var s := base + Usdt + rest;
    assert s[|base|..|base| + |Usdt|] == Usdt;
    assert UsdtAt(s, |base|);
    forall j | 0 <= j < |base|
      ensures !UsdtAt(s, j)
    {
      if j + |Usdt| <= |base| {
        assert s[j..j + |Usdt|] == base[j..j + |Usdt|];
        assert !UsdtAt(base, j);
      } else {
        // the occurrence would need Usdt[|base| - j] == 'U', but only Usdt[0] is 'U'
        var offset := |base| - j;
        assert 1 <= offset < |Usdt|;
        assert s[j..j + |Usdt|][offset] == s[|base|] == 'U' != Usdt[offset];
      }
    }
    assert s[..|base|] == base;
    assert s[|base| + |Usdt|..] == rest;
  }

  /** A second "USDT" survives the trim: only the first one is removed. */
  lemma TrimKeepsSecondUsdt()
    ensures TrimUsdt("USDTUSDT") == "USDT"
  {
    var s := "USDTUSDT";
    assert UsdtAt(s, 0) by { assert s[0..4] == Usdt; }
  }
}
