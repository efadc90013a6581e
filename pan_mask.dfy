/** Masking of the primary account number: `PAN.replaceAll("(?<=\\d{6})\\d(?=\\d{4})", "*")`
    behind a length guard. The replacement is modelled the way the regex matcher runs it,
    one position at a time from the left, with both lookarounds reading the ORIGINAL text;
    `IsMasked` is the independent per-position statement of the rule.
 */
module PanMask {
  import opened JavaText

  /** Lookbehind `(?<=\d{n})`: the n characters just before position i are digits. */
  predicate DigitsBefore(s: string, i: nat, n: nat)
    requires i <= |s|
  {
    n == 0 || (i > 0 && IsDigit(s[i - 1]) && DigitsBefore(s, i - 1, n - 1))
  }

  /** Lookahead `(?=\d{n})`: the n characters from position i on are digits. */
  predicate DigitsAfter(s: string, i: nat, n: nat)
    requires i <= |s|
    decreases n
  {
    n == 0 || (i < |s| && IsDigit(s[i]) && DigitsAfter(s, i + 1, n - 1))
  }

  /** The whole pattern matches the single character at position i. */
  predicate MatchAt(s: string, i: nat)
    requires i < |s|
  {
    DigitsBefore(s, i, 6) && IsDigit(s[i]) && DigitsAfter(s, i + 1, 4)
  }

  /** The matcher's scan from position i: each match is one character, replaced by '*'. */
  function ReplaceFrom(s: string, i: nat): (r: string)
    requires i <= |s|
    ensures |r| == |s| - i
    ensures forall k | 0 <= k < |r| :: r[k] == s[i + k] || r[k] == '*'
    decreases |s| - i
  {
    if i == |s| then [] else (if MatchAt(s, i) then "*" else [s[i]]) + ReplaceFrom(s, i + 1)
  }

  function ReplaceAll(s: string): string {
    ReplaceFrom(s, 0)
  }

  /** `getMaskedPAN`: the replacement applies only to a PAN of length 10 or more. */
  function MaskedPan(pan: string): (r: string)
    ensures |r| == |pan|
    ensures forall k | 0 <= k < |r| :: r[k] == pan[k] || r[k] == '*'
  {
    if |pan| >= 10 then ReplaceAll(pan) else pan
  }

  /** The masking rule stated per position: a digit with six digits before it and four after. */
  ghost predicate IsMasked(s: string, i: int) {
    6 <= i && i + 4 < |s| && forall j | i - 6 <= j <= i + 4 :: IsDigit(s[j])
  }

  lemma {:induction false} DigitsBeforeIff(s: string, i: nat, n: nat)
    requires i <= |s|
    ensures DigitsBefore(s, i, n) <==> n <= i && forall j | i - n <= j < i :: IsDigit(s[j])
  {
    if n > 0 && i > 0 {
      DigitsBeforeIff(s, i - 1, n - 1);
    }
  }

  lemma {:induction false} DigitsAfterIff(s: string, i: nat, n: nat)
    requires i <= |s|
    ensures DigitsAfter(s, i, n) <==> i + n <= |s| && forall j | i <= j < i + n :: IsDigit(s[j])
    decreases n
  {
    if n > 0 && i < |s| {
      DigitsAfterIff(s, i + 1, n - 1);
    }
  }

  lemma MatchAtIff(s: string, i: nat)
    requires i < |s|
    ensures MatchAt(s, i) <==> IsMasked(s, i)
  {
    DigitsBeforeIff(s, i, 6);
    DigitsAfterIff(s, i + 1, 4);
  }

  lemma {:induction false} ReplaceFromAt(s: string, i: nat, k: nat)
    requires i <= k < |s|
    ensures ReplaceFrom(s, i)[k - i] == if IsMasked(s, k) then '*' else s[k]
    decreases k - i
  {
    if i < k {
      ReplaceFromAt(s, i + 1, k);
    } else {
      MatchAtIff(s, k);
    }
  }

  /** The scan masks exactly the positions the per-position rule names, and keeps every other character. */
  lemma MaskedPanAt(pan: string, k: nat)
    requires k < |pan|
    ensures MaskedPan(pan)[k] == if IsMasked(pan, k) then '*' else pan[k]
  {
    if |pan| >= 10 {
      ReplaceFromAt(pan, 0, k);
      assert MaskedPan(pan) == ReplaceFrom(pan, 0);
    } else {
      assert !IsMasked(pan, k);
      assert MaskedPan(pan) == pan;
    }
  }

  /** `MaskedPanAt` for every position at once. */
  lemma MaskedPanRule(pan: string)
    ensures forall k | 0 <= k < |pan| :: MaskedPan(pan)[k] == if IsMasked(pan, k) then '*' else pan[k]
  {
    forall k | 0 <= k < |pan| ensures MaskedPan(pan)[k] == if IsMasked(pan, k) then '*' else pan[k] {
      MaskedPanAt(pan, k);
    }
  }

  /** Six digits before and four after need eleven characters: up to length 10 nothing is masked. */
  lemma MaskedPanShort(pan: string)
    requires |pan| <= 10
    ensures MaskedPan(pan) == pan
  {
    forall k | 0 <= k < |pan| ensures MaskedPan(pan)[k] == pan[k] {
      MaskedPanAt(pan, k);
    }
  }

  /** An all-digit PAN keeps its first six and last four digits and shows '*' in between. */
  lemma MaskedAllDigits(pan: string)
    requires |pan| >= 10
    requires forall j | 0 <= j < |pan| :: IsDigit(pan[j])
    ensures MaskedPan(pan) == pan[..6] + seq(|pan| - 10, _ => '*') + pan[|pan| - 4..]
  {
    var want := pan[..6] + seq(|pan| - 10, _ => '*') + pan[|pan| - 4..];
    forall k | 0 <= k < |pan| ensures MaskedPan(pan)[k] == want[k] {
      MaskedPanAt(pan, k);
    }
  }

  /** Masking an already masked PAN changes nothing: masking never creates a digit. */
  lemma MaskedPanIdempotent(pan: string)
    ensures MaskedPan(MaskedPan(pan)) == MaskedPan(pan)
  {
    var m := MaskedPan(pan);
    forall k | 0 <= k < |m| ensures MaskedPan(m)[k] == m[k] {
      MaskedPanAt(m, k);
      MaskedPanAt(pan, k);
      if IsMasked(m, k) {
        forall j | k - 6 <= j <= k + 4 ensures IsDigit(pan[j]) {
          MaskedPanAt(pan, j);
        }
        assert IsMasked(pan, k);
      }
    }
  }

  /** The card number of the demo: "603799601234123" is shown as "603799*****4123". */
  lemma MaskedDemoPan()
    ensures MaskedPan("603799601234123") == "603799*****4123"
  {
    var head, mid, tail := "603799", "60123", "4123";
    var pan := head + mid + tail;
    assert pan == "603799601234123";
    forall j | 0 <= j < |pan| ensures IsDigit(pan[j]) {
      if j < 6 { assert pan[j] == head[j]; }
      else if j < 11 { assert pan[j] == mid[j - 6]; }
      else { assert pan[j] == tail[j - 11]; }
    }
    MaskedAllDigits(pan);
    assert pan[..6] == head && pan[11..] == tail;
    assert head + seq(5, _ => '*') + tail == "603799*****4123";
  }

  /** A PAN already in masked form (six digits, stars, four digits) comes back unchanged. */
  lemma MaskedPanOfMaskedForm(head: string, n: nat, tail: string)
    requires |head| == 6 && |tail| == 4
    ensures MaskedPan(head + seq(n, _ => '*') + tail) == head + seq(n, _ => '*') + tail
  {
    var p := head + seq(n, _ => '*') + tail;
    forall k | 0 <= k < |p| ensures MaskedPan(p)[k] == p[k] {
      MaskedPanAt(p, k);
      if 6 <= k < 6 + n {
        assert p[k] == '*';
      }
    }
  }

  /** The pre-filled PAN "603799******1234" is already masked and comes back unchanged. */
  lemma MaskedDefaultPan()
    ensures MaskedPan("603799******1234") == "603799******1234"
  {
    MaskedPanOfMaskedForm("603799", 6, "1234");
    assert "603799" + seq(6, _ => '*') + "1234" == "603799******1234";
  }
}
