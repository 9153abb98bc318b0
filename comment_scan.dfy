/**
 * The stopping rule shared by the three comment abbreviators (`abbrComment` in
 * hook.go, `abbrCommentEn` and `abbrCommentZh`). Each walks the body one scalar
 * value (Go rune) at a time, counting runes, and stops at the first rune that is
 * a carriage return, a line feed, or a space once more than 100 runes have been
 * counted; failing that, it stops at the 121st rune. The three differ only in the
 * marker they append, so the rule is stated once here.
 */
module CommentScan {
  import opened Wrappers
  import opened Text

  /** A space ends the kept text only once more than this many runes were counted. */
  const SpaceAfter: nat := 100

  /** At most this many runes are kept. */
  const MaxKept: nat := 120

  /** Whether the rune `c`, counted as the `nrune`-th rune, stops the scan. */
  predicate IsBreak(c: char, nrune: nat) {
    c == '\r' || c == '\n' || (c == ' ' && nrune > SpaceAfter)
  }

  /** Why the scan stopped: at a breaking rune, or at the rune past the cap. */
  datatype StopKind = AtBreak | AtCap

  /** The scan stopped at rune index `at` (the first rune not kept). */
  datatype Stop = Stop(at: nat, kind: StopKind)

  /** The scan from rune index `k` on, given that no earlier rune stopped it. */
  function ScanFrom(s: string, k: nat): (r: Option<Stop>)
    requires k <= |s| && k <= MaxKept
    ensures r.None? ==>
      |s| <= MaxKept && forall j :: k <= j < |s| ==> !IsBreak(s[j], j + 1)
    ensures r.Some? ==>
      k <= r.value.at < |s| && r.value.at <= MaxKept &&
      (forall j :: k <= j < r.value.at ==> !IsBreak(s[j], j + 1)) &&
      (r.value.kind == AtBreak <==> IsBreak(s[r.value.at], r.value.at + 1)) &&
      (r.value.kind == AtCap ==> r.value.at == MaxKept)
    decreases |s| - k
  {
    if k == |s| then None
    else if IsBreak(s[k], k + 1) then Some(Stop(k, AtBreak))
    else if k + 1 > MaxKept then Some(Stop(k, AtCap))
    else ScanFrom(s, k + 1)
  }

  /** Where, and why, the abbreviators stop on `s`; `None` when they run off its end. */
  function Scan(s: string): Option<Stop>
  {
    ScanFrom(s, 0)
  }

  /** One step of the scan, as the abbreviators' loops take it: a breaking rune stops it... */
  lemma ScanFromBreak(s: string, k: nat)
    requires k < |s| && k <= MaxKept && IsBreak(s[k], k + 1)
    ensures ScanFrom(s, k) == Some(Stop(k, AtBreak))
  {
  }

  /** ...the rune past the cap stops it... */
  lemma ScanFromCap(s: string, k: nat)
    requires k < |s| && k == MaxKept && !IsBreak(s[k], k + 1)
    ensures ScanFrom(s, k) == Some(Stop(k, AtCap))
  {
  }

  /** ...any other rune is kept and the scan goes on... */
  lemma ScanFromNext(s: string, k: nat)
    requires k < |s| && k < MaxKept && !IsBreak(s[k], k + 1)
    ensures ScanFrom(s, k) == ScanFrom(s, k + 1)
  {
  }

  /** ...and it finds no stop once the body is used up. */
  lemma ScanFromEnd(s: string)
    requires |s| <= MaxKept
    ensures ScanFrom(s, |s|) == None
  {
  }

  /** The bodies every abbreviator returns unmodified. */
  predicate Untouched(s: string) {
    |s| <= MaxKept && forall j :: 0 <= j < |s| ==> !IsBreak(s[j], j + 1)
  }

  predicate HasNoNewline(s: string) {
    forall j :: 0 <= j < |s| ==> s[j] != '\r' && s[j] != '\n'
  }

  /**
   * The scan stops exactly when the body is not one of the untouched ones, and the
   * stop is then the first breaking rune, or the 121st rune when none breaks earlier.
   */
  lemma ScanCharacterization(s: string)
    ensures Scan(s).None? <==> Untouched(s)
    ensures Scan(s).Some? ==>
      var k := Scan(s).value.at;
      k < |s| && k <= MaxKept &&
      (forall j :: 0 <= j < k ==> !IsBreak(s[j], j + 1)) &&
      (IsBreak(s[k], k + 1) || k == MaxKept)
  {
    if Scan(s).Some? {
      var k := Scan(s).value.at;
      assert !IsBreak(s[k], k + 1) ==> Scan(s).value.kind == AtCap;
    }
  }

  /** The scan stops at the first breaking rune, or at the 121st rune if none breaks before it. */
  lemma ScanStopsAt(s: string, k: nat)
    requires k < |s| && k <= MaxKept
    requires forall j :: 0 <= j < k ==> !IsBreak(s[j], j + 1)
    requires IsBreak(s[k], k + 1) || k == MaxKept
    ensures Scan(s) == Some(Stop(k, if IsBreak(s[k], k + 1) then AtBreak else AtCap))
  {
    ScanCharacterization(s);
  }

  /** A rune that both breaks and sits at the cap is reported as a break. */
  lemma BreakTakesPriority(s: string)
    requires |s| > MaxKept
    requires forall j :: 0 <= j < MaxKept ==> !IsBreak(s[j], j + 1)
    requires IsBreak(s[MaxKept], MaxKept + 1)
    ensures Scan(s) == Some(Stop(MaxKept, AtBreak))
  {
    ScanStopsAt(s, MaxKept);
  }

  /** A body whose first 121 runes hold no CR, LF or space is cut at the cap. */
  lemma LongWordIsCapped(s: string)
    requires |s| > MaxKept
    requires forall j :: 0 <= j <= MaxKept ==> s[j] != '\r' && s[j] != '\n' && s[j] != ' '
    ensures Scan(s) == Some(Stop(MaxKept, AtCap))
  {
    ScanStopsAt(s, MaxKept);
  }

  /** A body of at most 100 runes without CR or LF is returned as is, spaces and all. */
  lemma ShortLineIsUntouched(s: string)
    requires |s| <= SpaceAfter && HasNoNewline(s)
    ensures Scan(s).None?
  {
    ScanCharacterization(s);
  }

  /** Neither the kept prefix nor an untouched body holds a CR or LF. */
  lemma KeptTextHasNoNewline(s: string)
    ensures Scan(s).None? ==> HasNoNewline(s)
    ensures Scan(s).Some? ==> HasNoNewline(s[..Scan(s).value.at])
  {
    ScanCharacterization(s);
    if Scan(s).Some? {
      var k := Scan(s).value.at;
      forall j | 0 <= j < k ensures s[..k][j] != '\r' && s[..k][j] != '\n' {
        assert !IsBreak(s[j], j + 1);
      }
    } else {
      forall j | 0 <= j < |s| ensures s[j] != '\r' && s[j] != '\n' {
        assert !IsBreak(s[j], j + 1);
      }
    }
  }

  /**
   * The bytes a truncation drops, `len(s) - i` with `i` the byte offset of the
   * stopping rune, are those of the dropped tail, stopping rune included, and so
   * there is at least one.
   */
  lemma OmittedBytes(s: string)
    requires Scan(s).Some?
    ensures var k := Scan(s).value.at;
      Utf8Length(s) - Utf8Length(s[..k]) == Utf8Length(s[k..]) &&
      Utf8Length(s) - Utf8Length(s[..k]) >= Utf8Width(s[k]) >= 1
  {
    var k := Scan(s).value.at;
    Utf8LengthSplit(s, k);
    Utf8LengthSplit(s[k..], 1);
    assert s[k..][..1] == [s[k]];
    assert Utf8Length([s[k]]) == Utf8Width(s[k]) by {
      assert [s[k]][..0] == [];
    }
  }

  lemma NoNewlineAppend(a: string, b: string)
    requires HasNoNewline(a) && HasNoNewline(b)
    ensures HasNoNewline(a + b)
  {
    forall j | 0 <= j < |a + b| ensures (a + b)[j] != '\r' && (a + b)[j] != '\n' {
      if j < |a| { assert (a + b)[j] == a[j]; } else { assert (a + b)[j] == b[j - |a|]; }
    }
  }

  lemma DigitsHaveNoNewline(n: int)
    ensures HasNoNewline(IntToString(n))
  {
    var r := IntToString(n);
    forall j | 0 <= j < |r| ensures r[j] != '\r' && r[j] != '\n' {
      if n < 0 {
        if j > 0 { assert r[j] == NatToString(-n)[j - 1]; }
      }
    }
  }
}
