/**
 * The text of a reverse-geocoding `location` parameter: Ruby's
 * `coordinates.reverse.join(',')`, with the coordinates given as the
 * strings Ruby's `to_s` would print for them. `Split` is the inverse that
 * the geocoding service applies when it reads the parameter back.
 */
module CoordinateText {

  /** `array.reverse`. */
  function Reversed<T>(s: seq<T>): (r: seq<T>)
    ensures |r| == |s|
    ensures forall i :: 0 <= i < |s| ==> r[i] == s[|s| - 1 - i]
  {
    if s == [] then [] else Reversed(s[1..]) + [s[0]]
  }

  /** `array.join(sep)` on strings. */
  function Join(parts: seq<string>, sep: char): (r: string)
    ensures |parts| >= 1 ==> parts[0] <= r
    ensures |parts| == 2 ==> r == parts[0] + [sep] + parts[1]
  {
    if |parts| == 0 then ""
    else if |parts| == 1 then parts[0]
    else parts[0] + [sep] + Join(parts[1..], sep)
  }

  /**
   * How the service reads a joined text back: the pieces between
   * separators, empty ones kept. Unlike Ruby's `split(sep, -1)`, the empty
   * text reads as one empty piece.
   */
  function Split(s: string, sep: char): (r: seq<string>)
    ensures |r| >= 1
  {
    if s == [] then [""]
    else if s[0] == sep then [""] + Split(s[1..], sep)
    else
      var rest := Split(s[1..], sep);
      [[s[0]] + rest[0]] + rest[1..]
  }

  /** A piece without a separator splits into itself. */
  lemma {:induction false} SplitPiece(a: string, sep: char)
    requires sep !in a
    ensures Split(a, sep) == [a]
  {
    if a != [] {
      SplitPiece(a[1..], sep);
      assert [a[0]] + a[1..] == a;
    }
  }

  /** The first separator ends the first piece. */
  lemma {:induction false} SplitAtSeparator(a: string, b: string, sep: char)
    requires sep !in a
    ensures Split(a + [sep] + b, sep) == [a] + Split(b, sep)
  {
    if a == [] {
      assert a + [sep] + b == [sep] + b;
    } else {
      assert (a + [sep] + b)[1..] == a[1..] + [sep] + b;
      SplitAtSeparator(a[1..], b, sep);
      assert [a[0]] + a[1..] == a;
    }
  }

  /** Joining pieces that hold no separator can be undone by splitting. */
  lemma {:induction false} SplitJoin(parts: seq<string>, sep: char)
    requires |parts| >= 1
    requires forall i :: 0 <= i < |parts| ==> sep !in parts[i]
    ensures Split(Join(parts, sep), sep) == parts
  {
    if |parts| == 1 {
      SplitPiece(parts[0], sep);
    } else {
      SplitAtSeparator(parts[0], Join(parts[1..], sep), sep);
      SplitJoin(parts[1..], sep);
    }
  }

  /** The location text of `[lat, lon]` is `"lon,lat"`. */
  lemma LocationText(lat: string, lon: string)
    ensures Join(Reversed([lat, lon]), ',') == lon + "," + lat
  {
    assert Reversed([lat, lon]) == [lon, lat];
  }

  /** Coordinates without commas can be read back from the location text. */
  lemma LatLonLocation(lat: string, lon: string)
    requires ',' !in lat && ',' !in lon
    ensures Split(Join(Reversed([lat, lon]), ','), ',') == [lon, lat]
  {
    var r := Reversed([lat, lon]);
    assert r == [lon, lat];
    SplitJoin(r, ',');
  }
}
