/** The board background descriptor: the image picker writes the five image
    fields into one string joined by `|`, and board creation splits it back. */
module ImageDescriptor {
  import opened Common

  const SEP: char := '|'

  /** The five parts of a descriptor, in their order in the string. */
  datatype ImageFields = ImageFields(id: string, thumbUrl: string, fullUrl: string, linkHtml: string, userName: string)

  /** `parts.join(sep)`. */
  function Join(parts: seq<string>, sep: char): string
  {
    if |parts| == 0 then ""
    else if |parts| == 1 then parts[0]
    else parts[0] + [sep] + Join(parts[1..], sep)
  }

  /** `s.split(sep)` for a one-character separator: the maximal runs between
      separators, so `k` separators give `k + 1` parts, empty ones included. */
  function Split(s: string, sep: char): (parts: seq<string>)
    ensures |parts| >= 1
    ensures Join(parts, sep) == s
    ensures forall i :: 0 <= i < |parts| ==> sep !in parts[i]
    decreases |s|
  {
    if |s| == 0 then [""]
    else
      var rest := Split(s[1..], sep);
      if s[0] == sep then [""] + rest
      else
        assert s == [s[0]] + s[1..];
        [[s[0]] + rest[0]] + rest[1..]
  }

  /** The picker's radio value: `${id}|${thumb}|${full}|${html}|${name}`. */
  function Encode(f: ImageFields): (e: string)
    ensures |e| == |f.id| + |f.thumbUrl| + |f.fullUrl| + |f.linkHtml| + |f.userName| + 4
    ensures e[..|f.id|] == f.id && e[|f.id|] == SEP
    ensures e[|e| - |f.userName|..] == f.userName && e[|e| - |f.userName| - 1] == SEP
  {
    f.id + "|" + f.thumbUrl + "|" + f.fullUrl + "|" + f.linkHtml + "|" + f.userName
  }

  /** Board creation's destructuring of `image.split("|")`: the first five
      parts in order, any further parts ignored; a part that is missing or
      empty makes the descriptor unusable. */
  function Parse(image: string): (r: Option<ImageFields>)
    ensures r.Some? ==>
              && r.value.id != "" && r.value.thumbUrl != "" && r.value.fullUrl != ""
              && r.value.linkHtml != "" && r.value.userName != ""
    ensures r.Some? ==>
              && SEP !in r.value.id && SEP !in r.value.thumbUrl && SEP !in r.value.fullUrl
              && SEP !in r.value.linkHtml && SEP !in r.value.userName
    ensures r.None? <==> |Split(image, SEP)| < 5 || "" in Split(image, SEP)[..5]
  {
    var parts := Split(image, SEP);
    if |parts| < 5 then None
    else if parts[0] == "" || parts[1] == "" || parts[2] == "" || parts[3] == "" || parts[4] == "" then None
    else Some(ImageFields(parts[0], parts[1], parts[2], parts[3], parts[4]))
  }

  lemma {:induction false} SplitWithoutSep(a: string, sep: char)
    requires sep !in a
    ensures Split(a, sep) == [a]
    decreases |a|
  {
    if |a| > 0 {
      SplitWithoutSep(a[1..], sep);
      assert a == [a[0]] + a[1..];
    }
  }

  /** Splitting at the first separator. */
  lemma {:induction false} SplitAtFirstSep(a: string, sep: char, b: string)
    requires sep !in a
    ensures Split(a + [sep] + b, sep) == [a] + Split(b, sep)
    decreases |a|
  {
    var s := a + [sep] + b;
    if |a| == 0 {
      assert s[1..] == b;
    } else {
      assert s[1..] == a[1..] + [sep] + b;
      SplitAtFirstSep(a[1..], sep, b);
      assert a == [a[0]] + a[1..];
    }
  }

  lemma FieldsSplit(f: ImageFields, tail: string)
    requires SEP !in f.id && SEP !in f.thumbUrl && SEP !in f.fullUrl && SEP !in f.linkHtml
    ensures Split(Encode(f) + tail, SEP) ==
            [f.id, f.thumbUrl, f.fullUrl, f.linkHtml] + Split(f.userName + tail, SEP)
  {
    var s4 := f.userName + tail;
    var s3 := f.linkHtml + [SEP] + s4;
    var s2 := f.fullUrl + [SEP] + s3;
    var s1 := f.thumbUrl + [SEP] + s2;
    assert Encode(f) + tail == f.id + [SEP] + s1;
    SplitAtFirstSep(f.id, SEP, s1);
    SplitAtFirstSep(f.thumbUrl, SEP, s2);
    SplitAtFirstSep(f.fullUrl, SEP, s3);
    SplitAtFirstSep(f.linkHtml, SEP, s4);
    var p4 := Split(s4, SEP);
    assert Split(s1, SEP) == [f.thumbUrl] + ([f.fullUrl] + ([f.linkHtml] + p4));
  }

  /** Round trip: five non-empty fields free of `|`, encoded by the picker,
      are read back unchanged by board creation. */
  lemma ParseEncode(f: ImageFields)
    requires f.id != "" && f.thumbUrl != "" && f.fullUrl != "" && f.linkHtml != "" && f.userName != ""
    requires SEP !in f.id && SEP !in f.thumbUrl && SEP !in f.fullUrl && SEP !in f.linkHtml && SEP !in f.userName
    ensures Parse(Encode(f)) == Some(f)
  {
    FieldsSplit(f, "");
    assert Encode(f) + "" == Encode(f);
    assert f.userName + "" == f.userName;
    SplitWithoutSep(f.userName, SEP);
  }

  /** Parts after the fifth do not matter. */
  lemma ParseIgnoresExtraParts(f: ImageFields, extra: string)
    requires f.id != "" && f.thumbUrl != "" && f.fullUrl != "" && f.linkHtml != "" && f.userName != ""
    requires SEP !in f.id && SEP !in f.thumbUrl && SEP !in f.fullUrl && SEP !in f.linkHtml && SEP !in f.userName
    ensures Parse(Encode(f) + [SEP] + extra) == Some(f)
  {
    FieldsSplit(f, [SEP] + extra);
    assert Encode(f) + [SEP] + extra == Encode(f) + ([SEP] + extra);
    SplitAtFirstSep(f.userName, SEP, extra);
    assert f.userName + ([SEP] + extra) == f.userName + [SEP] + extra;
  }

  lemma JoinUnfold(ps: seq<string>, sep: char)
    requires |ps| >= 2
    ensures Join(ps, sep) == ps[0] + [sep] + Join(ps[1..], sep)
  {
  }

  /** The encoding followed by `rest`, regrouped from the right. */
  lemma EncodeThen(f: ImageFields, rest: string)
    ensures Encode(f) + rest ==
            f.id + [SEP] + (f.thumbUrl + [SEP] + (f.fullUrl + [SEP] + (f.linkHtml + [SEP] + (f.userName + rest))))
  {
    var s4 := f.userName + rest;
    var s3 := f.linkHtml + [SEP] + s4;
    var s2 := f.fullUrl + [SEP] + s3;
    var s1 := f.thumbUrl + [SEP] + s2;
    assert Encode(f) + rest == f.id + [SEP] + s1;
  }

  /** A join of five or more parts, written with the first five spelled out. */
  lemma JoinFive(ps: seq<string>)
    requires |ps| >= 5
    ensures Join(ps, SEP) ==
            Encode(ImageFields(ps[0], ps[1], ps[2], ps[3], ps[4])) +
            (if |ps| == 5 then "" else [SEP] + Join(ps[5..], SEP))
  {
    var rest := if |ps| == 5 then "" else [SEP] + Join(ps[5..], SEP);
    var j4 := Join(ps[4..], SEP);
    if |ps| == 5 {
      assert j4 == ps[4] + rest;
    } else {
      JoinUnfold(ps[4..], SEP);
      assert ps[4..][1..] == ps[5..];
      assert j4 == ps[4] + rest;
    }
    var j3 := Join(ps[3..], SEP);
    JoinUnfold(ps[3..], SEP);
    assert ps[3..][1..] == ps[4..];
    assert j3 == ps[3] + [SEP] + j4;
    var j2 := Join(ps[2..], SEP);
    JoinUnfold(ps[2..], SEP);
    assert ps[2..][1..] == ps[3..];
    assert j2 == ps[2] + [SEP] + j3;
    var j1 := Join(ps[1..], SEP);
    JoinUnfold(ps[1..], SEP);
    assert ps[1..][1..] == ps[2..];
    assert j1 == ps[1] + [SEP] + j2;
    JoinUnfold(ps, SEP);
    assert Join(ps, SEP) == ps[0] + [SEP] + j1;
    EncodeThen(ImageFields(ps[0], ps[1], ps[2], ps[3], ps[4]), rest);
  }

  /** The converse: whatever `Parse` accepts is the encoding of what it
      returns, alone or followed by a separator and further parts. */
  lemma ParsedIsEncoded(image: string)
    requires Parse(image).Some?
    ensures var e := Encode(Parse(image).value);
            image == e || (|image| > |e| && image[..|e| + 1] == e + [SEP])
  {
    var parts := Split(image, SEP);
    JoinFive(parts);
    var e := Encode(Parse(image).value);
    if |parts| > 5 {
      var rest := [SEP] + Join(parts[5..], SEP);
      assert image == e + rest;
      assert image[..|e| + 1] == e + [SEP];
    }
  }
}
