/** The few toolkit values the demos compute with. */
module Gui {

  /** One 8-bit colour channel. */
  type Channel = x: int | 0 <= x <= 255

  /** QColor(r, g, b[, a]); the alpha channel defaults to opaque, as in Qt. */
  datatype Color = Color(red: Channel, green: Channel, blue: Channel, alpha: Channel := 255)

  /** The mouse button an event reports. */
  datatype MouseButton = LeftButton | RightButton | MiddleButton

  /** QPoint; the default point is the origin. */
  datatype Point = Point(x: int := 0, y: int := 0)

  /** The most UTF-16 code units a QLineEdit holds: its default `maxLength`. */
  const MaxLength := 32767

  /** The UTF-16 code units a character takes in a QString: two for a
      character beyond the Basic Multilingual Plane, one otherwise. */
  function Units(c: char): nat
  {
    if c as int > 0xFFFF then 2 else 1
  }

  /** The length Qt gives a text: the number of its UTF-16 code units. */
  function Utf16Length(s: string): (n: nat)
    ensures |s| <= n <= 2 * |s|
    decreases |s|
  {
    if s == [] then 0 else Utf16Length(s[..|s| - 1]) + Units(s[|s| - 1])
  }

  /** The code units of two texts put together add up. */
  lemma {:induction false} Utf16LengthConcat(a: string, b: string)
    ensures Utf16Length(a + b) == Utf16Length(a) + Utf16Length(b)
    decreases |b|
  {
    if b == [] {
      assert a + b == a;
    } else {
      var b' := b[..|b| - 1];
      assert (a + b)[..|a + b| - 1] == a + b';
      Utf16LengthConcat(a, b');
    }
  }

  /** A text of characters within the Basic Multilingual Plane, such as an
      ASCII text, has as many code units as characters. */
  lemma {:induction false} Utf16LengthBasic(s: string)
    requires forall i :: 0 <= i < |s| ==> s[i] as int <= 0xFFFF
    ensures Utf16Length(s) == |s|
    decreases |s|
  {
    if s != [] {
      Utf16LengthBasic(s[..|s| - 1]);
    }
  }

  /** The text a QLineEdit holds after `setText(t)`: the longest prefix of
      `t` that fits in the maximum length, as `t.left(maxLength)` keeps it. */
  function LineEditText(t: string): (r: string)
    ensures Utf16Length(r) <= MaxLength && |r| <= |t|
    ensures r == t[..|r|]
    ensures Utf16Length(t) <= MaxLength <==> r == t
    ensures |r| < |t| ==> Utf16Length(t[..|r| + 1]) > MaxLength
    ensures Utf16Length(t) > MaxLength ==> Utf16Length(r) >= MaxLength - 1
    decreases |t|
  {
    if Utf16Length(t) <= MaxLength then t
    else
      var r := LineEditText(t[..|t| - 1]);
      assert t[..|t| - 1][..|r|] == t[..|r|];
      assert |r| < |t| - 1 ==> t[..|t| - 1][..|r| + 1] == t[..|r| + 1];
      assert |r| == |t| - 1 ==> t[..|r| + 1] == t;
      r
  }

  /** Two texts that fit together are kept whole when set together. */
  lemma LineEditKeepsFitting(a: string, b: string)
    requires Utf16Length(a) + Utf16Length(b) <= MaxLength
    ensures LineEditText(a + b) == a + b
  {
    Utf16LengthConcat(a, b);
  }

  /** A text of characters beyond the Basic Multilingual Plane, such as
      emoji, takes two code units per character. */
  lemma {:induction false} Utf16LengthWide(s: string)
    requires forall i :: 0 <= i < |s| ==> s[i] as int > 0xFFFF
    ensures Utf16Length(s) == 2 * |s|
    decreases |s|
  {
    if s != [] {
      Utf16LengthWide(s[..|s| - 1]);
    }
  }

  /** A line edit keeps at most 16383 such characters: a longer text of them
      is cut although it has fewer than `MaxLength` characters. */
  lemma LineEditCutsWideText(t: string)
    requires forall i :: 0 <= i < |t| ==> t[i] as int > 0xFFFF
    ensures |t| > MaxLength / 2 <==> LineEditText(t) != t
    ensures |LineEditText(t)| <= MaxLength / 2
  {
    Utf16LengthWide(t);
    var r := LineEditText(t);
    assert forall i :: 0 <= i < |r| ==> r[i] == t[i];
    Utf16LengthWide(r);
  }
}
