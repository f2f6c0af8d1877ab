/** The product admin page of web/pages/admin/products.js: the keyword field
    of the product form, the list's search and category filters, the image
    upload checks and the stock badge. */
module AdminProductsPage {
  import opened Wrappers
  import opened Models
  import Text

  // ---------------------------------------------------------------- keywords

  /** A keyword as the save handler produces them: trimmed, non-empty, and
      without the separator. */
  predicate IsKeyword(k: string) {
    k != "" && Text.IsTrimmed(k) && ',' !in k
  }

  /** `.map(k => k.trim()).filter(Boolean)`. */
  function Cleaned(pieces: seq<string>): (r: seq<string>)
    ensures |r| <= |pieces|
    decreases |pieces|
  {
    if pieces == [] then []
    else
      var k := Text.Trim(pieces[0]);
      (if k == "" then [] else [k]) + Cleaned(pieces[1..])
  }

  /** A piece without a comma that does not trim away trims to a keyword. */
  lemma TrimmedIsKeyword(piece: string)
    requires ',' !in piece && Text.Trim(piece) != ""
    ensures IsKeyword(Text.Trim(piece))
  {
    Text.TrimKeepsOut(piece, ',');
  }

  predicate AllKeywords(ks: seq<string>) {
    forall i :: 0 <= i < |ks| ==> IsKeyword(ks[i])
  }

  lemma AllKeywordsConcat(a: seq<string>, b: seq<string>)
    requires AllKeywords(a) && AllKeywords(b)
    ensures AllKeywords(a + b)
  {
    forall i | 0 <= i < |a + b| ensures IsKeyword((a + b)[i]) {
      if i < |a| {
        assert (a + b)[i] == a[i];
      } else {
        assert (a + b)[i] == b[i - |a|];
      }
    }
  }

  /** Pieces without a comma clean to keywords. */
  lemma {:induction false} CleanedAreKeywords(pieces: seq<string>)
    requires forall i :: 0 <= i < |pieces| ==> ',' !in pieces[i]
    ensures AllKeywords(Cleaned(pieces))
    decreases |pieces|
  {
    if pieces != [] {
      var rest := pieces[1..];
      assert forall i :: 0 <= i < |rest| ==> rest[i] == pieces[i + 1];
      CleanedAreKeywords(rest);
      var k := Text.Trim(pieces[0]);
      if k != "" {
        TrimmedIsKeyword(pieces[0]);
      }
      AllKeywordsConcat(if k == "" then [] else [k], Cleaned(rest));
    }
  }

  /** Line 47: the keyword text of the form as the list saved with the
      product; an empty text gives no keywords. */
  function ParseKeywords(text: string): (r: seq<string>)
    ensures text == "" ==> r == []
    ensures forall i :: 0 <= i < |r| ==> IsKeyword(r[i])
  {
    if text == "" then []
    else
      CleanedAreKeywords(Text.Split(text, ','));
      Cleaned(Text.Split(text, ','))
  }

  /** Line 93: the keywords as the edit form shows them. */
  function JoinKeywords(ks: seq<string>): string {
    Text.Join(ks, ", ")
  }

  /** The text of several keywords is never empty. */
  lemma JoinedNotEmpty(ks: seq<string>)
    requires ks != [] && IsKeyword(ks[0])
    ensures JoinKeywords(ks) != ""
  {
    if |ks| > 1 {
      assert JoinKeywords(ks) == ks[0] + (", " + Text.Join(ks[1..], ", "));
    }
  }

  lemma CleanedCons(x: string, rest: seq<string>)
    ensures Cleaned([x] + rest) == (if Text.Trim(x) == "" then [] else [Text.Trim(x)]) + Cleaned(rest)
  {
    assert ([x] + rest)[1..] == rest;
  }

  /** The space `join` puts after each comma, or nothing before the first keyword. */
  function Lead(spaced: bool): string {
    if spaced then " " else ""
  }

  /** The piece in front of the first comma cleans to the first keyword. */
  lemma CleanedFirst(spaced: bool, k: string)
    requires IsKeyword(k)
    ensures ',' !in Lead(spaced) + k && Text.Trim(Lead(spaced) + k) == k
  {
    Text.TrimOfTrimmed(k);
    if spaced {
      Text.TrimLeadingSpace(' ', k);
      assert Lead(spaced) + k == [' '] + k;
    } else {
      assert Lead(spaced) + k == k;
    }
  }

  /** The joined text is the first keyword, a comma, and the rest behind a space. */
  lemma JoinedShape(ks: seq<string>, spaced: bool)
    requires |ks| > 1
    ensures Lead(spaced) + Text.Join(ks, ", ") == (Lead(spaced) + ks[0]) + [','] + (Lead(true) + Text.Join(ks[1..], ", "))
  {
    var rest := Text.Join(ks[1..], ", ");
    assert Text.Join(ks, ", ") == ks[0] + ", " + rest;
    assert ", " + rest == [','] + (" " + rest);
  }

  /** The pieces the joined text splits into: each keyword, every one but
      the first behind a space. */
  function Pieces(ks: seq<string>, spaced: bool): seq<string>
    decreases |ks|
  {
    if ks == [] then [] else [Lead(spaced) + ks[0]] + Pieces(ks[1..], true)
  }

  lemma {:induction false} SplitJoined(ks: seq<string>, spaced: bool)
    requires ks != [] && forall i :: 0 <= i < |ks| ==> ',' !in ks[i]
    ensures Text.Split(Lead(spaced) + Text.Join(ks, ", "), ',') == Pieces(ks, spaced)
    decreases |ks|
  {
    var first := Lead(spaced) + ks[0];
    assert ',' !in first;
    if |ks| == 1 {
      assert Lead(spaced) + Text.Join(ks, ", ") == first;
      Text.SplitWithoutSeparator(first, ',');
      assert Pieces(ks, spaced) == [first] + Pieces([], true);
    } else {
      JoinedShape(ks, spaced);
      Text.SplitAtFirstSeparator(first, ',', Lead(true) + Text.Join(ks[1..], ", "));
      SplitJoined(ks[1..], true);
    }
  }

  /** The first piece cleans to the first keyword. */
  lemma CleanedPiecesStep(ks: seq<string>, spaced: bool)
    requires ks != [] && IsKeyword(ks[0])
    ensures Cleaned(Pieces(ks, spaced)) == [ks[0]] + Cleaned(Pieces(ks[1..], true))
  {
    CleanedFirst(spaced, ks[0]);
    CleanedCons(Lead(spaced) + ks[0], Pieces(ks[1..], true));
  }

  lemma {:induction false} CleanedPieces(ks: seq<string>, spaced: bool)
    requires forall i :: 0 <= i < |ks| ==> IsKeyword(ks[i])
    ensures Cleaned(Pieces(ks, spaced)) == ks
    decreases |ks|
  {
    if ks != [] {
      CleanedPiecesStep(ks, spaced);
      CleanedPieces(ks[1..], true);
      assert ks == [ks[0]] + ks[1..];
    }
  }

  /** Editing a product and saving it unchanged keeps its keywords, as long
      as each is trimmed, non-empty and comma-free. */
  lemma KeywordsRoundTrip(ks: seq<string>)
    requires forall i :: 0 <= i < |ks| ==> IsKeyword(ks[i])
    ensures ParseKeywords(JoinKeywords(ks)) == ks
  {
    if ks != [] {
      JoinedNotEmpty(ks);
      SplitJoined(ks, false);
      CleanedPieces(ks, false);
      assert Lead(false) + Text.Join(ks, ", ") == JoinKeywords(ks);
    }
  }

  /** A keyword with a comma in it does not survive an edit: it is saved
      back as the two keywords around the comma. */
  lemma CommaSplitsKeyword(a: string, b: string)
    requires IsKeyword(a) && IsKeyword(b)
    ensures ParseKeywords(JoinKeywords([a + [','] + b])) == [a, b]
  {
    var text := a + [','] + b;
    assert JoinKeywords([text]) == text;
    Text.SplitAtFirstSeparator(a, ',', b);
    Text.SplitWithoutSeparator(b, ',');
    assert Text.Split(text, ',') == [a] + [b];
    Text.TrimOfTrimmed(a);
    Text.TrimOfTrimmed(b);
    CleanedCons(a, [b]);
    CleanedCons(b, []);
    assert [b] + [] == [b];
  }

  // ---------------------------------------------------------------- filters

  /** Lines 101-104: the search term, compared without case, occurs in the
      name or in a non-empty description; an empty term matches all. */
  predicate MatchesSearch(p: Product, term: string) {
    || term == ""
    || Text.Contains(Text.ToLower(p.name), Text.ToLower(term))
    || (p.description != "" && Text.Contains(Text.ToLower(p.description), Text.ToLower(term)))
  }

  /** Line 104: an exact category match; an empty filter matches all. */
  predicate MatchesCategory(p: Product, category: string) {
    category == "" || p.category == category
  }

  /** `filteredProducts`, lines 100-106. */
  function FilteredProducts(ps: seq<Product>, term: string, category: string): (r: seq<Product>)
    ensures forall p :: p in r <==> p in ps && MatchesSearch(p, term) && MatchesCategory(p, category)
    ensures |r| <= |ps|
    decreases |ps|
  {
    if ps == [] then []
    else
      var rest := FilteredProducts(ps[1..], term, category);
      if MatchesSearch(ps[0], term) && MatchesCategory(ps[0], category) then [ps[0]] + rest else rest
  }

  /** With neither filter set the whole list shows, in its order. */
  lemma {:induction false} BlankFiltersKeepAll(ps: seq<Product>)
    ensures FilteredProducts(ps, "", "") == ps
    decreases |ps|
  {
    if ps != [] {
      BlankFiltersKeepAll(ps[1..]);
      assert ps == [ps[0]] + ps[1..];
    }
  }

  lemma ToLowerIdempotent(s: string)
    ensures Text.ToLower(Text.ToLower(s)) == Text.ToLower(s)
  {
  }

  /** The search ignores the case of the term. */
  lemma SearchIgnoresCase(p: Product, term: string)
    ensures MatchesSearch(p, term) <==> MatchesSearch(p, Text.ToLower(term))
  {
    ToLowerIdempotent(term);
  }

  /** The first index of `x` in `s`. */
  function FirstIndex<T(==)>(s: seq<T>, x: T): (i: nat)
    requires x in s
    ensures i < |s| && s[i] == x && x !in s[..i]
  {
    if s[0] == x then 0 else FirstIndex(s[1..], x) + 1
  }

  lemma {:induction false} FirstIndexInInit<T>(s: seq<T>, x: T)
    requires s != [] && x in s[..|s| - 1]
    ensures FirstIndex(s, x) == FirstIndex(s[..|s| - 1], x)
    decreases |s|
  {
    if s[0] != x {
      assert s[1..][..|s[1..]| - 1] == s[..|s| - 1][1..];
      FirstIndexInInit(s[1..], x);
    }
  }

  lemma FirstIndicesInInit(s: seq<string>)
    requires s != []
    ensures forall x :: x in s[..|s| - 1] ==> FirstIndex(s, x) == FirstIndex(s[..|s| - 1], x)
  {
    forall x | x in s[..|s| - 1] {
      FirstIndexInInit(s, x);
    }
  }

  lemma FirstIndexOfLast(s: seq<string>)
    requires s != [] && s[|s| - 1] !in s[..|s| - 1]
    ensures FirstIndex(s, s[|s| - 1]) == |s| - 1
  {
    assert s == s[..|s| - 1] + [s[|s| - 1]];
  }

  /** `[...new Set(s)]`: each value once, in the order of its first occurrence. */
  function Distinct(s: seq<string>): (r: seq<string>)
    ensures forall x :: x in r <==> x in s
    ensures forall i, j :: 0 <= i < j < |r| ==> r[i] != r[j]
    ensures forall i, j :: 0 <= i < j < |r| ==> FirstIndex(s, r[i]) < FirstIndex(s, r[j])
    decreases |s|
  {
    if s == [] then []
    else
      var init := s[..|s| - 1];
      var r := Distinct(init);
      assert forall x :: x in init ==> x in s;
      FirstIndicesInInit(s);
      if s[|s| - 1] in r then r
      else
        FirstIndexOfLast(s);
        r + [s[|s| - 1]]
  }

  /** `products.map(p => p.category).filter(Boolean)`. */
  function NamedCategories(ps: seq<Product>): (r: seq<string>)
    ensures forall c :: c in r <==> c != "" && exists p :: p in ps && p.category == c
    decreases |ps|
  {
    if ps == [] then []
    else (if ps[0].category == "" then [] else [ps[0].category]) + NamedCategories(ps[1..])
  }

  /** `categories`, line 108: the products' non-empty categories, each once,
      in the order they first appear. */
  function Categories(ps: seq<Product>): (r: seq<string>)
    ensures forall c :: c in r <==> c != "" && exists p :: p in ps && p.category == c
    ensures forall i, j :: 0 <= i < j < |r| ==> r[i] != r[j]
  {
    Distinct(NamedCategories(ps))
  }

  // ---------------------------------------------------------------- images

  /** What the file picker hands over: the MIME type and the size in bytes. */
  datatype ImageFile = ImageFile(mimeType: string, size: int)

  const MaxImageSize := 2 * 1024 * 1024

  datatype ImageCheck = NoFile | Rejected(message: string) | Accepted

  /** `handleImageChange`, lines 16-29: the type is checked before the size. */
  function CheckImage(file: Option<ImageFile>): (r: ImageCheck)
    ensures r == NoFile <==> file.None?
    ensures r == Accepted <==> file.Some? && Text.StartsWith(file.value.mimeType, "image/") && file.value.size <= MaxImageSize
    ensures r == Rejected("Please select an image file") <==> file.Some? && !Text.StartsWith(file.value.mimeType, "image/")
    ensures r == Rejected("Image size should be less than 2MB") <==>
              file.Some? && Text.StartsWith(file.value.mimeType, "image/") && file.value.size > MaxImageSize
  {
    if file.None? then NoFile
    else if !Text.StartsWith(file.value.mimeType, "image/") then Rejected("Please select an image file")
    else if file.value.size > MaxImageSize then Rejected("Image size should be less than 2MB")
    else Accepted
  }

  /** Exactly 2 MiB is still accepted; one byte more is not. */
  lemma ImageSizeBoundary()
    ensures CheckImage(Some(ImageFile("image/png", 2097152))) == Accepted
    ensures CheckImage(Some(ImageFile("image/png", 2097153))).Rejected?
  {
    assert Text.StartsWith("image/png", "image/") by {
      assert "image/png"[..6] == "image/";
    }
  }

  // ---------------------------------------------------------------- badge

  datatype Badge = Green | Yellow | Red

  /** Lines 378-380. */
  function StockBadge(stock: int): (b: Badge)
    ensures b == Green <==> stock > 10
    ensures b == Yellow <==> 1 <= stock <= 10
    ensures b == Red <==> stock <= 0
  {
    if stock > 10 then Green else if stock > 0 then Yellow else Red
  }
}
