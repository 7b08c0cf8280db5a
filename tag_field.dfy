/** The tags field of the post editor: the stored list is shown as one comma-separated
    string, and the string the user edits is parsed back into a list on submit. */
module TagField {
  import opened Text

  /** `.map((tag) => tag.trim())` */
  function TrimAll(parts: seq<string>): (r: seq<string>)
    ensures |r| == |parts|
    ensures forall k :: 0 <= k < |r| ==> r[k] == Trim(parts[k])
  {
    seq(|parts|, k requires 0 <= k < |parts| => Trim(parts[k]))
  }

  /** `.filter((tag) => tag.length > 0)` */
  function DropEmpty(parts: seq<string>): (r: seq<string>)
    ensures |r| <= |parts|
    ensures forall t :: t in r <==> t in parts && t != ""
  {
    if parts == [] then []
    else (if parts[0] == "" then [] else [parts[0]]) + DropEmpty(parts[1..])
  }

  /** The submit handler's parse of the tags field: split at commas, trim each piece and
      drop the empty ones. Every tag is trimmed and non-empty, and there are at most one
      more tags than commas. */
  function ParseTags(s: string): (tags: seq<string>)
    ensures |tags| <= Count(s, ',') + 1
    ensures forall k :: 0 <= k < |tags| ==> tags[k] != "" && IsTrimmed(tags[k])
  {
    var trimmed := TrimAll(Split(s, ','));
    var tags := DropEmpty(trimmed);
    forall k | 0 <= k < |tags|
      ensures tags[k] != "" && IsTrimmed(tags[k])
    {
      assert tags[k] in trimmed;
    }
    tags
  }

  /** The form's initial tags text: `post.tags ? post.tags.join(', ') : ''`. */
  function JoinTags(tags: Option<seq<string>>): (s: string)
    ensures tags.None? ==> s == ""
    ensures tags == Some([]) ==> s == ""
  {
    if tags.None? then "" else Join(tags.value, ", ")
  }

  // ---------------------------------------------------------------- order

  lemma TrimAllConcat(a: seq<string>, b: seq<string>)
    ensures TrimAll(a + b) == TrimAll(a) + TrimAll(b)
  {
  }

  lemma {:induction false} DropEmptyConcat(a: seq<string>, b: seq<string>)
    ensures DropEmpty(a + b) == DropEmpty(a) + DropEmpty(b)
  {
    if a == [] {
      assert a + b == b;
    } else {
      var ab := a + b;
      assert ab[0] == a[0] && ab[1..] == a[1..] + b;
      DropEmptyConcat(a[1..], b);
      assert DropEmpty(ab) == (if a[0] == "" then [] else [a[0]]) + DropEmpty(a[1..] + b);
    }
  }

  /** The tags before a comma come first, in their order, then the tags after it. */
  lemma ParseTagsConcat(a: string, b: string)
    ensures ParseTags(a + [','] + b) == ParseTags(a) + ParseTags(b)
  {
    SplitConcat(a, b, ',');
    TrimAllConcat(Split(a, ','), Split(b, ','));
    DropEmptyConcat(TrimAll(Split(a, ',')), TrimAll(Split(b, ',')));
  }

  // ---------------------------------------------------------------- blanks

  predicate BlankOrComma(s: string)
  {
    forall i :: 0 <= i < |s| ==> IsSpace(s[i]) || s[i] == ','
  }

  lemma {:induction false} BlankPiecesAreSpace(s: string)
    requires BlankOrComma(s)
    ensures forall k :: 0 <= k < |Split(s, ',')| ==> AllSpace(Split(s, ',')[k])
  {
    if s != [] {
      var rest := Split(s[1..], ',');
      BlankPiecesAreSpace(s[1..]);
      if s[0] != ',' {
        assert AllSpace([s[0]] + rest[0]);
        assert Split(s, ',') == [[s[0]] + rest[0]] + rest[1..];
      }
    }
  }

  /** A field of nothing but whitespace and commas, the empty field among them, parses to
      no tags. */
  lemma BlankParsesEmpty(s: string)
    requires BlankOrComma(s)
    ensures ParseTags(s) == []
  {
    BlankPiecesAreSpace(s);
    var trimmed := TrimAll(Split(s, ','));
    assert forall t :: t in trimmed ==> t == "";
    var tags := DropEmpty(trimmed);
    assert |tags| > 0 ==> tags[0] in tags;
  }

  // ---------------------------------------------------------------- round trip

  /** The tags a form can show and give back unchanged. */
  predicate IsFieldTag(t: string)
  {
    t != "" && IsTrimmed(t) && ',' !in t
  }

  lemma SingleTag(t: string)
    requires IsFieldTag(t)
    ensures ParseTags(t) == [t]
  {
    NoCommaSplit(t);
    TrimmedIsFixed(t);
    assert TrimAll([t]) == [t];
  }

  lemma {:induction false} NoCommaSplit(s: string)
    requires ',' !in s
    ensures Split(s, ',') == [s]
  {
    if s != [] {
      NoCommaSplit(s[1..]);
      assert s == [s[0]] + s[1..];
    }
  }

  /** A space in front of the field changes nothing: it goes into the first piece and is
      trimmed away. */
  lemma LeadingSpaceIgnored(s: string)
    ensures ParseTags([' '] + s) == ParseTags(s)
  {
    var parts := Split(s, ',');
    var x := [' '] + s;
    assert x[0] == ' ' && x[1..] == s;
    var xparts := Split(x, ',');
    assert xparts == [[' '] + parts[0]] + parts[1..];
    TrimAfterSpace(parts[0]);
    TrimAllFirst(xparts, parts);
  }

  lemma TrimAllFirst(xs: seq<string>, ys: seq<string>)
    requires |xs| == |ys| > 0 && xs[1..] == ys[1..] && Trim(xs[0]) == Trim(ys[0])
    ensures TrimAll(xs) == TrimAll(ys)
  {
    forall k | 0 < k < |xs|
      ensures xs[k] == ys[k]
    {
      assert xs[k] == xs[1..][k - 1];
    }
  }

  /** Parsing the text the form shows gives the stored tags back, for tags that are
      trimmed, non-empty and free of commas. */
  lemma {:induction false} JoinThenParse(tags: seq<string>)
    requires forall k :: 0 <= k < |tags| ==> IsFieldTag(tags[k])
    ensures ParseTags(JoinTags(Some(tags))) == tags
  {
    if tags == [] {
      assert ParseTags("") == [] by { BlankParsesEmpty(""); }
    } else if |tags| == 1 {
      SingleTag(tags[0]);
    } else {
      var rest := Join(tags[1..], ", ");
      assert Join(tags, ", ") == tags[0] + [','] + ([' '] + rest);
      ParseTagsConcat(tags[0], [' '] + rest);
      LeadingSpaceIgnored(rest);
      SingleTag(tags[0]);
      JoinThenParse(tags[1..]);
    }
  }
}
