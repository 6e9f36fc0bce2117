/**
 * The footer's display of the business phone number: every hyphen of the
 * stored number is shown as a dot (a global regular-expression replace).
 */
module Footer {

  /** The stored display form of the phone number. */
  const PhoneDisplay: string := "317-600-7994"

  /** The character a single position of the number is displayed as. */
  function DotFor(c: char): char {
    if c == '-' then '.' else c
  }

  /** `s` with every `-` replaced by `.`, as `s.replace(/-/g, '.')` does. */
  function DotSeparated(s: string): (r: string)
    ensures |r| == |s|
    ensures forall i :: 0 <= i < |s| ==> r[i] == DotFor(s[i])
    ensures '-' !in r
  {
    if s == [] then [] else [DotFor(s[0])] + DotSeparated(s[1..])
  }

  /** Positions holding anything other than a hyphen keep their character. */
  lemma NonHyphensKept(s: string, i: nat)
    requires i < |s| && s[i] != '-'
    ensures |DotSeparated(s)| == |s| && DotSeparated(s)[i] == s[i]
  {
  }

  /** A position shows a dot exactly when it held a hyphen or a dot. */
  lemma DotExactlyWhereHyphenOrDot(s: string, i: nat)
    requires i < |s|
    ensures DotSeparated(s)[i] == '.' <==> s[i] == '-' || s[i] == '.'
  {
  }

  /** Replacing again changes nothing. */
  lemma {:induction false} DotSeparatedIdempotent(s: string)
    ensures DotSeparated(DotSeparated(s)) == DotSeparated(s)
  {
    if s != [] {
      DotSeparatedIdempotent(s[1..]);
      assert DotSeparated(s)[1..] == DotSeparated(s[1..]);
    }
  }

  /** Text without hyphens is displayed as it is. */
  lemma {:induction false} NoHyphenUnchanged(s: string)
    requires '-' !in s
    ensures DotSeparated(s) == s
  {
    if s != [] {
      NoHyphenUnchanged(s[1..]);
    }
  }

  /** A text that has a dot wherever `s` has a hyphen and agrees with `s`
      elsewhere is exactly what the footer shows for `s`. */
  lemma DotSeparatedPointwise(s: string, t: string)
    requires |t| == |s|
    requires forall i :: 0 <= i < |s| ==> t[i] == DotFor(s[i])
    ensures DotSeparated(s) == t
  {
  }

  /** The footer shows the business number with dots. */
  lemma FooterPhone()
    ensures DotSeparated(PhoneDisplay) == "317.600.7994"
  {
    var shown := "317.600.7994";
    forall i | 0 <= i < |PhoneDisplay|
      ensures shown[i] == DotFor(PhoneDisplay[i])
    {
      if i == 3 || i == 7 {
        assert PhoneDisplay[i] == '-' && shown[i] == '.';
      } else {
        assert PhoneDisplay[i] == shown[i] != '-';
      }
    }
    DotSeparatedPointwise(PhoneDisplay, shown);
  }
}
