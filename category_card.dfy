/** A category tile of the browse page: the image it shows and the link to
    the event list filtered by its category. */
module CategoryCard {

  import opened Options
  import opened Text

  /** A category as the categories endpoint returns it. */
  datatype Category = Category(categoryId: int, categoryName: string, categoryField: Option<string>)

  /** `s.startsWith(prefix)`. */
  predicate StartsWith(s: string, prefix: string) {
    |prefix| <= |s| && s[..|prefix|] == prefix
  }

  const Thumbnail: string := "/thumbnail.jpeg"

  /** `imageSrc`: the category's field when it is a non-empty text starting
      with "http" or "/", otherwise the default thumbnail. */
  function ImageSrc(field: Option<string>): (src: string)
    ensures !Falsy(field) && (StartsWith(field.value, "http") || StartsWith(field.value, "/"))
            ==> src == field.value
    ensures Falsy(field) || !(StartsWith(field.value, "http") || StartsWith(field.value, "/"))
            ==> src == Thumbnail
  {
    if !Falsy(field) && (StartsWith(field.value, "http") || StartsWith(field.value, "/")) then field.value
    else Thumbnail
  }

  /** Whatever the field holds, the image is an absolute URL or a path on
      the site, never empty. */
  lemma ImageIsAlwaysALocation(field: Option<string>)
    ensures StartsWith(ImageSrc(field), "http") || StartsWith(ImageSrc(field), "/")
    ensures ImageSrc(field) != ""
  {
    if ImageSrc(field) == Thumbnail {
      assert Thumbnail[..1] == "/";
    }
  }

  /** The characters `encodeURIComponent` leaves as they are. */
  predicate Unreserved(c: char) {
    ('A' <= c <= 'Z') || ('a' <= c <= 'z') || ('0' <= c <= '9')
    || c in {'-', '_', '.', '!', '~', '*', '\'', '(', ')'}
  }

  /** An upper-case hexadecimal digit. */
  function HexDigit(d: nat): (c: char)
    requires d < 16
    ensures Unreserved(c)
  {
    "0123456789ABCDEF"[d]
  }

  /** The UTF-8 bytes of a code point. The card itself only ever encodes
      `String(category_id)`, digits and `-`, all single bytes; the longer
      forms complete `encodeURIComponent` for any text. */
  function Utf8(cp: nat): (bytes: seq<nat>)
    requires cp < 0x110000
    ensures 1 <= |bytes| <= 4
    ensures forall k :: 0 <= k < |bytes| ==> bytes[k] < 256
    ensures cp < 0x80 <==> |bytes| == 1
    ensures |bytes| == 1 ==> bytes[0] == cp
  {
    if cp < 0x80 then [cp]
    else if cp < 0x800 then [0xC0 + cp / 64, 0x80 + cp % 64]
    else if cp < 0x10000 then [0xE0 + cp / 4096, 0x80 + (cp / 64) % 64, 0x80 + cp % 64]
    else [0xF0 + cp / 262144, 0x80 + (cp / 4096) % 64, 0x80 + (cp / 64) % 64, 0x80 + cp % 64]
  }

  /** Each byte written as `%` and two upper-case hexadecimal digits. */
  function PercentBytes(bytes: seq<nat>): (r: string)
    requires forall k :: 0 <= k < |bytes| ==> bytes[k] < 256
    ensures |r| == 3 * |bytes|
    ensures forall k :: 0 <= k < |r| ==> Unreserved(r[k]) || r[k] == '%'
  {
    if bytes == [] then ""
    else ['%', HexDigit(bytes[0] / 16), HexDigit(bytes[0] % 16)] + PercentBytes(bytes[1..])
  }

  /** One character of `encodeURIComponent`. */
  function EncodeChar(c: char): (r: string)
    ensures Unreserved(c) ==> r == [c]
    ensures !Unreserved(c) ==> |r| >= 3 && r[0] == '%'
  {
    if Unreserved(c) then [c] else PercentBytes(Utf8(c as nat))
  }

  /** `encodeURIComponent`, character by character. */
  function EncodeUriComponent(s: string): string {
    if s == [] then "" else EncodeChar(s[0]) + EncodeUriComponent(s[1..])
  }

  /** The encoding only ever produces unreserved characters and `%`, so the
      value cannot end the query parameter (`&`) or start a fragment (`#`). */
  lemma {:induction false} EncodedIsUrlSafe(s: string)
    ensures forall k :: 0 <= k < |EncodeUriComponent(s)| ==>
      Unreserved(EncodeUriComponent(s)[k]) || EncodeUriComponent(s)[k] == '%'
  {
    if s != [] {
      EncodedIsUrlSafe(s[1..]);
      var head, tail := EncodeChar(s[0]), EncodeUriComponent(s[1..]);
      assert EncodeUriComponent(s) == head + tail;
      if !Unreserved(s[0]) {
        assert head == PercentBytes(Utf8(s[0] as nat));
      }
    }
  }

  /** A text of unreserved characters is left unchanged. */
  lemma {:induction false} UnreservedUnchanged(s: string)
    requires forall k :: 0 <= k < |s| ==> Unreserved(s[k])
    ensures EncodeUriComponent(s) == s
  {
    if s != [] {
      UnreservedUnchanged(s[1..]);
      assert s == [s[0]] + s[1..];
    }
  }

  /** A single byte written out. */
  lemma PercentByte(b: nat)
    requires b < 256
    ensures PercentBytes([b]) == ['%', HexDigit(b / 16), HexDigit(b % 16)]
  {
    assert PercentBytes([b]) == ['%', HexDigit(b / 16), HexDigit(b % 16)] + PercentBytes([]);
  }

  /** A space is one byte, 0x20. */
  lemma EncodeSpace()
    ensures EncodeUriComponent(" ") == "%20"
  {
    assert EncodeUriComponent(" ") == EncodeChar(' ') + EncodeUriComponent("");
    assert Utf8(' ' as nat) == [0x20];
    PercentByte(0x20);
    assert HexDigit(2) == '2' && HexDigit(0) == '0';
  }

  /** An e with an acute accent is two UTF-8 bytes, 0xC3 0xA9. */
  lemma EncodeAccented()
    ensures EncodeUriComponent("é") == "%C3%A9"
  {
    assert EncodeUriComponent("é") == EncodeChar('é') + EncodeUriComponent("");
    assert 'é' as nat == 0xE9;
    assert Utf8(0xE9) == [0xC3, 0xA9];
    assert PercentBytes([0xC3, 0xA9]) == "%" + [HexDigit(12), HexDigit(3)] + PercentBytes([0xA9]);
    PercentByte(0xA9);
    assert HexDigit(12) == 'C' && HexDigit(3) == '3' && HexDigit(10) == 'A' && HexDigit(9) == '9';
  }

  /** `&` is escaped, the letters around it are kept. */
  lemma EncodeAmpersand()
    ensures EncodeUriComponent("a&b") == "a%26b"
  {
    assert EncodeUriComponent("a&b") == EncodeChar('a') + EncodeUriComponent("&b");
    assert EncodeUriComponent("&b") == EncodeChar('&') + EncodeUriComponent("b");
    assert EncodeUriComponent("b") == EncodeChar('b') + EncodeUriComponent("");
    assert Utf8('&' as nat) == [0x26];
    PercentByte(0x26);
    assert HexDigit(2) == '2' && HexDigit(6) == '6';
  }

  /** Three characters outside the unreserved set: a space, an e with an
      acute accent (two UTF-8 bytes) and `&` between two kept letters. These
      are `encodeURIComponent` on text the card never passes (its input is
      `String(category_id)`); they pin the general encoding, while
      `LinkCarriesId` covers the card's own input. */
  lemma EncodeExamples()
    ensures EncodeUriComponent(" ") == "%20"
    ensures EncodeUriComponent("é") == "%C3%A9"
    ensures EncodeUriComponent("a&b") == "a%26b"
  {
    EncodeSpace();
    EncodeAccented();
    EncodeAmpersand();
  }

  const LinkPrefix: string := "/browse-event?category="

  /** The tile's `href`. */
  function Link(categoryId: int): (href: string)
    ensures StartsWith(href, LinkPrefix)
  {
    LinkPrefix + EncodeUriComponent(IntToString(categoryId))
  }

  /** The decimal text of an id has only digits and `-`, which the encoding
      keeps, so the link carries the id's own digits and reading them back
      gives the id. */
  lemma LinkCarriesId(categoryId: int)
    ensures Link(categoryId) == LinkPrefix + IntToString(categoryId)
    ensures ParseInt(Link(categoryId)[|LinkPrefix|..]) == Some(categoryId)
  {
    var digits := IntToString(categoryId);
    forall k | 0 <= k < |digits|
      ensures Unreserved(digits[k])
    {
      assert IsDigit(digits[k]) || digits[k] == '-';
    }
    UnreservedUnchanged(digits);
    assert Link(categoryId)[|LinkPrefix|..] == digits;
    IntToStringRoundTrip(categoryId);
  }

  /** The tile's two outputs: the image depends only on the field and the
      link only on the id. */
  function Tile(c: Category): (tile: (string, string))
    ensures tile.0 == ImageSrc(c.categoryField) && tile.1 == Link(c.categoryId)
  {
    (ImageSrc(c.categoryField), Link(c.categoryId))
  }
}
