/** Splitting a memory file into its front matter and its body, as
    `parse_memory_file` does once the file has been read. The front matter
    is kept as raw text: turning it into a mapping is the YAML parser's job,
    which is not part of this model. */
module MemoryFile {
  import opened PyStr

  /** The marker that opens and closes the front matter. */
  const Delimiter: string := "---"

  /** What `parse_memory_file` returns on success, with the front matter
      still unparsed. */
  datatype ParsedFile = ParsedFile(frontmatter: string, body: string, file: string)

  /** `parse_memory_file(path)` for a file whose text is `content`: reject
      text that does not start with the delimiter, split on the delimiter at
      most twice, reject fewer than three pieces, and otherwise return the
      middle piece as front matter and the last piece, stripped, as body. */
  function ParseMemoryFile(path: string, content: string): (r: Option<ParsedFile>)
    ensures r.Some? ==> StartsWith(content, Delimiter) && r.value.file == path
    ensures r.Some? ==> !Contains(r.value.frontmatter, Delimiter)
  {
    if !StartsWith(content, Delimiter) then None
    else
      var parts := Split(content, Delimiter, 2);
      SplitPiecesFree(content, Delimiter, 2);
      if |parts| < 3 then None
      else Some(ParsedFile(parts[1], Strip(parts[2]), path))
  }

  /** Once the text starts with the delimiter, the first cut is at index 0,
      so the first piece is empty and the rest is split once. */
  lemma SplitAfterOpening(content: string)
    requires StartsWith(content, Delimiter)
    ensures Split(content, Delimiter, 2) == [""] + Split(content[|Delimiter|..], Delimiter, 1)
  {
    assert OccursAt(content, Delimiter, 0);
    assert content[..0] == "";
  }

  /** Parsing fails exactly when the text does not open with the delimiter,
      or when no second delimiter follows that does not overlap the first. */
  lemma {:induction false} ParseSucceedsIff(path: string, content: string)
    ensures ParseMemoryFile(path, content).Some? <==>
            StartsWith(content, Delimiter) &&
            exists j: nat :: |Delimiter| <= j && OccursAt(content, Delimiter, j)
  {
    if StartsWith(content, Delimiter) {
      var rest := content[|Delimiter|..];
      SplitAfterOpening(content);
      var found := Find(rest, Delimiter, 0);
      FindLeftmost(rest, Delimiter, 0);
      if found.Some? {
        OccursInSuffix(content, Delimiter, |Delimiter|, found.value);
        assert OccursAt(content, Delimiter, |Delimiter| + found.value);
      } else {
        forall j: nat | |Delimiter| <= j
          ensures !OccursAt(content, Delimiter, j)
        {
          OccursInSuffix(content, Delimiter, |Delimiter|, j - |Delimiter|);
        }
      }
    }
  }

  /** When the text opens with the delimiter and `k` is the leftmost start
      of a delimiter at or after the opening one's end, the front matter is
      exactly what lies between the two delimiters and the body is the rest,
      stripped. */
  lemma {:induction false} ParseCutsAtLeftmost(path: string, content: string, k: nat)
    requires StartsWith(content, Delimiter)
    requires |Delimiter| <= k && OccursAt(content, Delimiter, k)
    requires forall j :: |Delimiter| <= j < k ==> !OccursAt(content, Delimiter, j)
    ensures ParseMemoryFile(path, content) ==
            Some(ParsedFile(content[|Delimiter|..k], Strip(content[k + |Delimiter|..]), path))
  {
    var n := |Delimiter|;
    var rest := content[n..];
    SplitAfterOpening(content);
    FindLeftmost(rest, Delimiter, 0);
    OccursInSuffix(content, Delimiter, n, k - n);
    var i := Find(rest, Delimiter, 0).value;
    OccursInSuffix(content, Delimiter, n, i);
    assert i == k - n;
    SplitCut(rest, Delimiter, 1, i);
    assert rest[..i] == content[n..k];
    assert rest[i + n..] == content[k + n..];
    assert Split(content, Delimiter, 2) == ["", content[n..k], content[k + n..]];
  }

  lemma JoinThree(parts: seq<string>, sep: string)
    requires |parts| == 3
    ensures Join(parts, sep) == parts[0] + sep + parts[1] + sep + parts[2]
  {
    assert parts[1..][1..] == [parts[2]];
    assert Join(parts[1..], sep) == parts[1] + sep + parts[2];
  }

  /** On success the split pieces put back together give the file's text:
      an empty first piece, the front matter (free of the delimiter), and
      the rest, whose stripped form is the body. */
  lemma ParseRoundTrip(path: string, content: string)
    requires ParseMemoryFile(path, content).Some?
    ensures var parts := Split(content, Delimiter, 2);
            && |parts| == 3
            && parts[0] == ""
            && !Contains(parts[1], Delimiter)
            && content == parts[0] + Delimiter + parts[1] + Delimiter + parts[2]
            && ParseMemoryFile(path, content) == Some(ParsedFile(parts[1], Strip(parts[2]), path))
  {
    var parts := Split(content, Delimiter, 2);
    SplitAfterOpening(content);
    SplitPiecesFree(content, Delimiter, 2);
    SplitJoin(content, Delimiter, 2);
    JoinThree(parts, Delimiter);
  }
}
