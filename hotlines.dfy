/** Calling a hotline: the number is stripped to digits and '+', then dialled
    with the platform's URL scheme. */
module Hotlines {
  import opened Wrappers

  predicate Dialable(c: char) {
    '0' <= c <= '9' || c == '+'
  }

  /** `phoneNumber.replace(/[^0-9+]/g, '')` */
  function Sanitize(s: string): (r: string)
    ensures |r| <= |s|
    ensures forall i :: 0 <= i < |r| ==> Dialable(r[i])
    decreases |s|
  {
    if s == [] then []
    else (if Dialable(s[0]) then [s[0]] else []) + Sanitize(s[1..])
  }

  /** Sanitising keeps the dialable characters in their order: it
      distributes over concatenation. */
  lemma {:induction false} SanitizeAppend(a: string, b: string)
    ensures Sanitize(a + b) == Sanitize(a) + Sanitize(b)
    decreases |a|
  {
    if a == [] {
      assert a + b == b;
    } else {
      assert (a + b)[1..] == a[1..] + b;
      SanitizeAppend(a[1..], b);
    }
  }

  /** A number made only of dialable characters is left as it is, and one
      without any becomes empty. */
  lemma {:induction false} SanitizeKeepsDialable(s: string)
    ensures (forall i :: 0 <= i < |s| ==> Dialable(s[i])) <==> Sanitize(s) == s
    ensures (forall i :: 0 <= i < |s| ==> !Dialable(s[i])) ==> Sanitize(s) == []
    decreases |s|
  {
    if s != [] {
      SanitizeKeepsDialable(s[1..]);
      if Sanitize(s) == s {
        assert s[1..] == Sanitize(s)[1..];
      }
    }
  }

  /** Sanitising twice is the same as once. */
  lemma SanitizeIdempotent(s: string)
    ensures Sanitize(Sanitize(s)) == Sanitize(s)
  {
    SanitizeKeepsDialable(Sanitize(s));
  }

  datatype Platform = Ios | Android | OtherPlatform

  /** `Platform.select({ios, android})`: no entry for other platforms, and
      then nothing is opened. */
  function DialUrl(platform: Platform, phoneNumber: string): (r: Option<string>)
    ensures platform == OtherPlatform <==> r.None?
  {
    var number := Sanitize(phoneNumber);
    match platform
    case Ios => Some("telprompt:" + number)
    case Android => Some("tel:" + number)
    case OtherPlatform => None
  }

  /** The dialled URL is the platform's scheme followed by exactly the
      sanitised number. */
  lemma DialUrlReadsBack(platform: Platform, phoneNumber: string)
    requires platform != OtherPlatform
    ensures var scheme := if platform == Ios then "telprompt:" else "tel:";
      var url := DialUrl(platform, phoneNumber).value;
      && url[..|scheme|] == scheme
      && url[|scheme|..] == Sanitize(phoneNumber)
  {
  }
}
