/** Where a file lives on a disk: normalizing the path and the name a client sent, and
    the object key the two make. */
module StorageLocations {
  import opened Common
  import Text

  const MAX_PATH_LENGTH := 512
  const MAX_NAME_LENGTH := 255

  datatype LocationError =
    | NulByte
    | HomeDirectory
    | WindowsPath
    | TraversalSegment
    | PathTooLong
    | NameRequired
    | SeparatorInName
    | UnusableName
    | NameTooLong

  /** Only the constructor below makes locations the application uses. */
  datatype StorageLocation = StorageLocation(path: string, name: string)
  {
    /** The object key, relative to the root of the disk. */
    function Key(): string {
      if path != "" then path + "/" + name else name
    }

    /** The key, segment by segment. */
    function Segments(): seq<string> {
      Pieces(path) + [name]
    }
  }

  predicate Traversal(segment: string) { segment == ".." || segment == "." }

  /** What no backend should see. */
  function Danger(candidate: string): Option<LocationError> {
    if '\0' in candidate then Some(NulByte)
    else if candidate != "" && candidate[0] == '~' then Some(HomeDirectory)
    else if |candidate| > 1 && candidate[1] == ':' then Some(WindowsPath)
    else None
  }

  function ForwardSlashes(s: string): (r: string)
    ensures |r| == |s| && '\\' !in r
    ensures '\\' !in s ==> r == s
  {
    seq(|s|, i requires 0 <= i < |s| => if s[i] == '\\' then '/' else s[i])
  }

  function NonEmpty(pieces: seq<string>): (r: seq<string>)
    ensures forall p :: p in r <==> p in pieces && p != ""
  {
    if pieces == [] then []
    else (if pieces[0] == "" then [] else [pieces[0]]) + NonEmpty(pieces[1..])
  }

  function ValidatedPath(value: Option<string>): Result<string, LocationError> {
    if value.None? then Ok("")
    else
      var candidate := ForwardSlashes(Text.Trim(value.value));
      var segments := NonEmpty(Text.Split(candidate, '/'));
      var normalized := Text.Join(segments, '/');
      if Danger(candidate).Some? then Err(Danger(candidate).value)
      else if exists s :: s in segments && Traversal(s) then Err(TraversalSegment)
      else if |normalized| > MAX_PATH_LENGTH then Err(PathTooLong)
      else Ok(normalized)
  }

  function ValidatedName(value: string): Result<string, LocationError> {
    var candidate := Text.Trim(value);
    if candidate == "" then Err(NameRequired)
    else if Danger(candidate).Some? then Err(Danger(candidate).value)
    else if '/' in candidate || '\\' in candidate then Err(SeparatorInName)
    else if Traversal(candidate) then Err(UnusableName)
    else if |candidate| > MAX_NAME_LENGTH then Err(NameTooLong)
    else Ok(candidate)
  }

  function MakeLocation(path: Option<string>, name: string): Result<StorageLocation, LocationError> {
    match ValidatedPath(path)
    case Err(error) => Err(error)
    case Ok(p) =>
      match ValidatedName(name)
      case Err(error) => Err(error)
      case Ok(n) => Ok(StorageLocation(p, n))
  }

  /** Some client input is accepted as this location. */
  ghost predicate Accepted(l: StorageLocation) {
    exists path, name :: MakeLocation(path, name) == Ok(l)
  }

  /** The directories of a normalized path; none when it is empty. */
  function Pieces(path: string): seq<string> {
    if path == "" then [] else Text.Split(path, '/')
  }

  /** A segment that names something below the directory it is looked up in. */
  predicate Plain(segment: string) {
    segment != "" && !Traversal(segment) && '/' !in segment && '\\' !in segment
  }

  ghost predicate AllPlain(segments: seq<string>) {
    forall s :: s in segments ==> Plain(s)
  }

  // ----- what normalizing leaves -------------------------------------------

  lemma {:induction false} PiecesComeFrom(s: string, separator: char, p: string, c: char)
    requires p in Text.Split(s, separator) && c in p
    ensures c in s
  {
    var rest := Text.Split(s[1..], separator);
    if s[0] == separator {
      PiecesComeFrom(s[1..], separator, p, c);
    } else if p == [s[0]] + rest[0] {
      if c != s[0] {
        PiecesComeFrom(s[1..], separator, rest[0], c);
      }
    } else {
      PiecesComeFrom(s[1..], separator, p, c);
    }
  }

  lemma {:induction false} JoinedChars(pieces: seq<string>, separator: char, c: char)
    requires c in Text.Join(pieces, separator)
    ensures c == separator || exists p :: p in pieces && c in p
  {
    if |pieces| > 1 {
      if c !in pieces[0] && c != separator {
        JoinedChars(pieces[1..], separator, c);
      }
    }
  }

  lemma {:induction false} JoinedIsNonEmpty(pieces: seq<string>, separator: char)
    requires pieces != [] && forall p :: p in pieces ==> p != ""
    ensures Text.Join(pieces, separator) != ""
  {
    assert pieces[0] in pieces;
  }

  /** An accepted path is its plain segments, joined. */
  lemma {:induction false} AcceptedPath(value: Option<string>, path: string)
    requires ValidatedPath(value) == Ok(path)
    ensures AllPlain(Pieces(path)) && Text.Join(Pieces(path), '/') == path && '\\' !in path
  {
    if value.Some? {
      var candidate := ForwardSlashes(Text.Trim(value.value));
      var segments := NonEmpty(Text.Split(candidate, '/'));
      forall s | s in segments
        ensures Plain(s)
      {
        if '\\' in s {
          PiecesComeFrom(candidate, '/', s, '\\');
        }
      }
      if '\\' in path {
        JoinedChars(segments, '/', '\\');
      }
      if segments != [] {
        Text.SplitJoin(segments, '/');
        JoinedIsNonEmpty(segments, '/');
      }
    }
  }

  /** Every segment of an accepted key is plain, and the key splits into exactly them. */
  lemma {:induction false} KeySegmentsArePlain(l: StorageLocation)
    requires Accepted(l)
    ensures AllPlain(l.Segments())
    ensures Text.Split(l.Key(), '/') == l.Segments() && Text.Join(l.Segments(), '/') == l.Key()
  {
    var path, name :| MakeLocation(path, name) == Ok(l);
    AcceptedPath(path, l.path);
    if Pieces(l.path) == [] {
      assert l.Segments() == [l.name];
    } else {
      Text.JoinAppend(Pieces(l.path), l.name, '/');
    }
    Text.SplitJoin(l.Segments(), '/');
  }

  lemma {:induction false} PathFromItsPieces(l: StorageLocation)
    requires Accepted(l)
    ensures Text.Join(Pieces(l.path), '/') == l.path
  {
    var path, name :| MakeLocation(path, name) == Ok(l);
    AcceptedPath(path, l.path);
  }

  lemma {:induction false} SameKeySameLocation(l: StorageLocation, m: StorageLocation)
    requires Accepted(l) && Accepted(m) && l.Key() == m.Key()
    ensures l == m
  {
    KeySegmentsArePlain(l);
    KeySegmentsArePlain(m);
    SameEnds(Pieces(l.path), l.name, Pieces(m.path), m.name);
    PathFromItsPieces(l);
    PathFromItsPieces(m);
  }

  /** Different accepted locations have different keys. */
  lemma {:induction false} KeyIsInjective(l: StorageLocation, m: StorageLocation)
    ensures Accepted(l) && Accepted(m) && l.Key() == m.Key() ==> l == m
  {
    if Accepted(l) && Accepted(m) && l.Key() == m.Key() {
      SameKeySameLocation(l, m);
    }
  }

  /** So one row per disk, path and name is one row per disk and object. */
  lemma {:induction false} SameRowIffSameObject(disk: string, l: StorageLocation, other: string, m: StorageLocation)
    requires Accepted(l) && Accepted(m)
    ensures (disk, l.path, l.name) == (other, m.path, m.name) <==> (disk, l.Key()) == (other, m.Key())
  {
    if l.Key() == m.Key() {
      KeyIsInjective(l, m);
    }
  }

  /** Following a key one segment at a time, as a file system does. */
  function Walk(directory: seq<string>, segments: seq<string>): seq<string>
    decreases segments
  {
    if segments == [] then directory
    else if segments[0] == "" || segments[0] == "." then Walk(directory, segments[1..])
    else if segments[0] == ".." then Walk(if directory == [] then [] else directory[..|directory| - 1], segments[1..])
    else Walk(directory + [segments[0]], segments[1..])
  }

  lemma {:induction false} PlainSegmentsDescend(directory: seq<string>, segments: seq<string>)
    requires AllPlain(segments)
    ensures Walk(directory, segments) == directory + segments
    decreases segments
  {
    if segments == [] {
      assert directory + segments == directory;
    } else {
      assert segments[0] in segments && Plain(segments[0]);
      PlainSegmentsDescend(directory + [segments[0]], segments[1..]);
      assert directory + segments == directory + [segments[0]] + segments[1..];
    }
  }

  /** Resolving an accepted key never rises above the root of its disk: at every step
      the walk stands below it, and ends at the root followed by the key. */
  lemma {:induction false} NeverLeavesTheRoot(root: seq<string>, l: StorageLocation, k: nat)
    requires Accepted(l) && k <= |Text.Split(l.Key(), '/')|
    ensures root <= Walk(root, Text.Split(l.Key(), '/')[..k])
    ensures Walk(root, Text.Split(l.Key(), '/')[..k]) == root + Text.Split(l.Key(), '/')[..k]
  {
    KeySegmentsArePlain(l);
    PlainSegmentsDescend(root, l.Segments()[..k]);
  }

  // ----- what normalizing keeps --------------------------------------------

  /** `kept` is the non-empty ones of these, in their order and each as often as it
      occurs: `from` says where each one stood. */
  ghost predicate KeptFrom(pieces: seq<string>, kept: seq<string>, from: seq<nat>) {
    |from| == |kept| &&
    (forall k :: 0 <= k < |from| ==> from[k] < |pieces| && kept[k] == pieces[from[k]] != "") &&
    (forall k, l :: 0 <= k < l < |from| ==> from[k] < from[l]) &&
    (forall i: nat :: i < |pieces| && pieces[i] != "" ==> i in from)
  }

  lemma {:induction false} KeepsTheOrder(pieces: seq<string>) returns (from: seq<nat>)
    ensures KeptFrom(pieces, NonEmpty(pieces), from)
  {
    from := [];
    if pieces != [] {
      var last := |pieces| - 1;
      from := KeepsTheOrder(pieces[..last]);
      OneMorePiece(pieces[..last], pieces[last]);
      assert pieces == pieces[..last] + [pieces[last]];
      if pieces[last] != "" {
        from := from + [last];
      }
    }
  }

  lemma {:induction false} OneMorePiece(pieces: seq<string>, piece: string)
    ensures NonEmpty(pieces + [piece]) == NonEmpty(pieces) + if piece == "" then [] else [piece]
  {
    EmptyPiecesDoNotCount(pieces, piece, []);
    assert pieces + [piece] + [] == pieces + [piece] && [piece] + [] == [piece];
    assert NonEmpty([piece]) == (if piece == "" then [] else [piece]) + NonEmpty([]);
  }

  /** A separator too many - in front, behind or doubled - changes nothing. */
  lemma {:induction false} EmptyPiecesDoNotCount(before: seq<string>, piece: string, after: seq<string>)
    ensures NonEmpty(before + [piece] + after) == NonEmpty(before) + NonEmpty([piece] + after)
    ensures piece == "" ==> NonEmpty(before + [piece] + after) == NonEmpty(before + after)
  {
    if before == [] {
      assert before + [piece] + after == [piece] + after && before + after == after;
      assert ([piece] + after)[1..] == after;
    } else {
      EmptyPiecesDoNotCount(before[1..], piece, after);
      assert (before + [piece] + after)[1..] == before[1..] + [piece] + after;
      assert (before + after)[1..] == before[1..] + after;
    }
  }

  /** Pieces between separators of either kind. */
  predicate WithoutSeparators(pieces: seq<string>) {
    forall p :: p in pieces ==> '/' !in p && '\\' !in p
  }

  /** What becomes of every path there is, once it is trimmed: a NUL byte, a home
      directory, a drive, a `.` or `..` segment and more than 512 characters are refused,
      in this order; anything else is its non-empty segments joined, whatever slashes
      stood before, behind or doubled between them. */
  lemma {:induction false} NormalizesTo(pieces: seq<string>)
    requires pieces != [] && WithoutSeparators(pieces) && Text.Trimmed(Text.Join(pieces, '/'))
    ensures var text, kept := Text.Join(pieces, '/'), NonEmpty(pieces);
            ValidatedPath(Some(text)) ==
            if '\0' in text then Err(NulByte)
            else if text != "" && text[0] == '~' then Err(HomeDirectory)
            else if |text| > 1 && text[1] == ':' then Err(WindowsPath)
            else if "." in pieces || ".." in pieces then Err(TraversalSegment)
            else if |Text.Join(kept, '/')| > 512 then Err(PathTooLong)
            else Ok(Text.Join(kept, '/'))
  {
    var text := Text.Join(pieces, '/');
    if '\\' in text {
      JoinedChars(pieces, '/', '\\');
    }
    Text.SplitJoin(pieces, '/');
    assert ForwardSlashes(Text.Trim(text)) == text;
    assert forall s :: s in NonEmpty(pieces) <==> s in pieces && s != "";
    if "." in pieces {
      assert "." in NonEmpty(pieces) && Traversal(".");
    }
    if ".." in pieces {
      assert ".." in NonEmpty(pieces) && Traversal("..");
    }
  }

  /** So two spellings of the same directories mean the same place, unless one of them is
      refused for how it begins. */
  lemma {:induction false} SlashesDoNotMatter(pieces: seq<string>, others: seq<string>)
    requires pieces != [] && WithoutSeparators(pieces) && Text.Trimmed(Text.Join(pieces, '/'))
    requires others != [] && WithoutSeparators(others) && Text.Trimmed(Text.Join(others, '/'))
    requires NonEmpty(pieces) == NonEmpty(others)
    requires Danger(Text.Join(pieces, '/')).None? && Danger(Text.Join(others, '/')).None?
    ensures ValidatedPath(Some(Text.Join(pieces, '/'))) == ValidatedPath(Some(Text.Join(others, '/')))
  {
    NormalizesTo(pieces);
    NormalizesTo(others);
    assert forall s :: s in NonEmpty(pieces) <==> s in pieces && s != "";
    assert forall s :: s in NonEmpty(others) <==> s in others && s != "";
  }

  lemma {:induction false} TrimLeftSlashes(s: string)
    ensures Text.TrimLeft(ForwardSlashes(s)) == ForwardSlashes(Text.TrimLeft(s))
  {
    if s != [] && Text.IsSpace(s[0]) {
      TrimLeftSlashes(s[1..]);
      assert ForwardSlashes(s)[1..] == ForwardSlashes(s[1..]);
    }
  }

  lemma {:induction false} TrimRightSlashes(s: string)
    ensures Text.TrimRight(ForwardSlashes(s)) == ForwardSlashes(Text.TrimRight(s))
  {
    if s != [] && Text.IsSpace(s[|s| - 1]) {
      TrimRightSlashes(s[..|s| - 1]);
      assert ForwardSlashes(s)[..|s| - 1] == ForwardSlashes(s[..|s| - 1]);
    }
  }

  /** A backslash is a slash; and space around a path is nothing. */
  lemma {:induction false} BackslashesAreSlashes(raw: string, other: string)
    requires |raw| == |other|
    requires forall i :: 0 <= i < |raw| ==> other[i] == if raw[i] == '\\' then '/' else raw[i]
    ensures ValidatedPath(Some(raw)) == ValidatedPath(Some(other)) == ValidatedPath(Some(Text.Trim(raw)))
  {
    assert other == ForwardSlashes(raw);
    TrimSlashes(raw);
    var candidate := ForwardSlashes(Text.Trim(raw));
    SameCandidate(raw, other, candidate);
    SameCandidate(raw, Text.Trim(raw), candidate);
  }

  lemma {:induction false} TrimSlashes(raw: string)
    ensures Text.Trim(ForwardSlashes(raw)) == ForwardSlashes(Text.Trim(raw)) ==
            ForwardSlashes(Text.Trim(ForwardSlashes(raw)))
  {
    TrimLeftSlashes(raw);
    TrimRightSlashes(Text.TrimLeft(raw));
  }

  /** Only what is left after trimming, with every separator a slash, counts. */
  lemma {:induction false} SameCandidate(raw: string, other: string, candidate: string)
    requires ForwardSlashes(Text.Trim(raw)) == candidate == ForwardSlashes(Text.Trim(other))
    ensures ValidatedPath(Some(raw)) == ValidatedPath(Some(other))
  {
  }

  /** A name is taken as sent, space around it aside, exactly when it has 1 to 255
      characters, no separator, no NUL byte, does not begin like a home directory or a
      drive, and is not `.` or `..`. */
  lemma {:induction false} NameExactly(value: string)
    ensures var name := Text.Trim(value);
            ValidatedName(value).Ok? <==>
              1 <= |name| <= 255 && '/' !in name && '\\' !in name && '\0' !in name && name[0] != '~' &&
              (|name| == 1 || name[1] != ':') && name != "." && name != ".."
    ensures ValidatedName(value).Ok? ==> ValidatedName(value) == Ok(Text.Trim(value))
  {
  }

  /** The key a client gets: the directories it named, in its order, and the name. */
  lemma {:induction false} KeyIsWhatWasAsked(pieces: seq<string>, name: string, l: StorageLocation)
    requires pieces != [] && WithoutSeparators(pieces) && Text.Trimmed(Text.Join(pieces, '/'))
    requires MakeLocation(Some(Text.Join(pieces, '/')), name) == Ok(l)
    ensures l.Segments() == NonEmpty(pieces) + [Text.Trim(name)]
    ensures Text.Split(l.Key(), '/') == NonEmpty(pieces) + [Text.Trim(name)]
  {
    NormalizesTo(pieces);
    NameExactly(name);
    var kept := NonEmpty(pieces);
    if kept != [] {
      JoinedIsNonEmpty(kept, '/');
      Text.SplitJoin(kept, '/');
    }
    KeySegmentsArePlain(l);
  }

  // ----- normalizing twice -------------------------------------------------

  lemma {:induction false} JoinSplit(s: string, separator: char)
    ensures Text.Join(Text.Split(s, separator), separator) == s
  {
    if s != [] {
      JoinSplit(s[1..], separator);
      var rest := Text.Split(s[1..], separator);
      if s[0] == separator {
        assert ([""] + rest)[1..] == rest;
      } else if |rest| > 1 {
        assert ([[s[0]] + rest[0]] + rest[1..])[1..] == rest[1..];
      }
    }
  }

  lemma {:induction false} DroppingShortens(pieces: seq<string>, separator: char)
    ensures |Text.Join(NonEmpty(pieces), separator)| <= |Text.Join(pieces, separator)|
  {
    if |pieces| > 1 {
      DroppingShortens(pieces[1..], separator);
      var rest := NonEmpty(pieces[1..]);
      if pieces[0] == "" {
        assert NonEmpty(pieces) == rest;
      } else if rest == [] {
        assert NonEmpty(pieces) == [pieces[0]];
      } else {
        assert NonEmpty(pieces)[1..] == rest;
      }
    }
  }

  lemma {:induction false} TrimmingShortens(s: string)
    requires !Text.Trimmed(s)
    ensures |Text.Trim(s)| < |s|
  {
    if Text.IsSpace(s[0]) {
      assert |Text.TrimLeft(s)| < |s|;
    } else {
      assert Text.TrimLeft(s) == s;
    }
  }

  lemma {:induction false} UntrimmedPathChanges(path: string)
    requires !Text.Trimmed(path)
    ensures ValidatedPath(Some(path)) != Ok(path)
  {
    var candidate := ForwardSlashes(Text.Trim(path));
    TrimmingShortens(path);
    JoinSplit(candidate, '/');
    DroppingShortens(Text.Split(candidate, '/'), '/');
  }

  lemma {:induction false} NothingToDrop(pieces: seq<string>)
    requires forall p :: p in pieces ==> p != ""
    ensures NonEmpty(pieces) == pieces
  {
    if pieces != [] {
      assert forall p :: p in pieces[1..] ==> p in pieces;
      NothingToDrop(pieces[1..]);
      assert pieces[0] in pieces;
    }
  }

  lemma {:induction false} PiecesStay(path: string)
    requires AllPlain(Pieces(path))
    ensures NonEmpty(Text.Split(path, '/')) == Pieces(path)
  {
    if path == "" {
      assert Text.Split(path, '/') == [""];
      assert NonEmpty([""]) == [] + NonEmpty([]);
    } else {
      NothingToDrop(Pieces(path));
    }
  }

  lemma {:induction false} PlainPathStays(path: string)
    requires Text.Trimmed(path) && '\\' !in path && AllPlain(Pieces(path)) && |path| <= MAX_PATH_LENGTH
    requires NonEmpty(Text.Split(path, '/')) == Pieces(path) && Text.Join(Pieces(path), '/') == path
    ensures ValidatedPath(Some(path)) == if Danger(path).Some? then Err(Danger(path).value) else Ok(path)
  {
    assert ForwardSlashes(Text.Trim(path)) == path;
    assert forall s :: s in Pieces(path) ==> Plain(s);
  }

  lemma {:induction false} TrimmedPathStays(value: Option<string>, path: string)
    requires ValidatedPath(value) == Ok(path) && Text.Trimmed(path)
    ensures ValidatedPath(Some(path)) == if Danger(path).Some? then Err(Danger(path).value) else Ok(path)
  {
    AcceptedPath(value, path);
    PiecesStay(path);
    PlainPathStays(path);
  }

  /** Normalizing is not idempotent on everything it accepts. It gives an accepted
      location back exactly when the stored path has no space at either end and does
      not start like a home directory or a drive. */
  lemma {:induction false} NormalizesAgainIff(path: Option<string>, name: string, l: StorageLocation)
    requires MakeLocation(path, name) == Ok(l)
    ensures MakeLocation(Some(l.path), l.name) == Ok(l) <==> Text.Trimmed(l.path) && Danger(l.path).None?
  {
    if Text.Trimmed(l.path) {
      TrimmedPathStays(path, l.path);
    } else {
      UntrimmedPathChanges(l.path);
    }
  }

  /** A stored row is normalized again whenever it is read back. It then leads to the
      object it was stored for exactly under the same condition. */
  lemma {:induction false} ReadBackKeepsTheKeyIff(path: Option<string>, name: string, l: StorageLocation)
    requires MakeLocation(path, name) == Ok(l)
    ensures var again := MakeLocation(Some(l.path), l.name);
            (again.Ok? && again.value.Key() == l.Key()) <==> Text.Trimmed(l.path) && Danger(l.path).None?
  {
    var again := MakeLocation(Some(l.path), l.name);
    NormalizesAgainIff(path, name, l);
    if again.Ok? && again.value.Key() == l.Key() {
      KeyIsInjective(again.value, l);
    }
  }

  lemma {:induction false} OnePiece(piece: string)
    requires piece != "" && '/' !in piece
    ensures NonEmpty(Text.Split("/" + piece, '/')) == [piece] && NonEmpty(Text.Split(piece, '/')) == [piece]
  {
    Text.SplitWithout(piece, '/');
    Text.SplitFirst("", piece, '/');
    assert "" + ['/'] + piece == "/" + piece;
    assert NonEmpty([piece]) == [piece] + NonEmpty([]);
    assert NonEmpty([""] + [piece]) == [] + NonEmpty([piece]);
  }

  lemma {:induction false} OneDirectory(value: string, piece: string)
    requires piece != "" && '/' !in piece && '\\' !in value && |piece| <= MAX_PATH_LENGTH && !Traversal(piece)
    requires Text.Trim(value) == piece || Text.Trim(value) == "/" + piece
    requires Danger(Text.Trim(value)).None? && '\\' !in Text.Trim(value)
    ensures ValidatedPath(Some(value)) == Ok(piece)
  {
    OnePiece(piece);
  }

  /** Two ways it fails: a stored path that a second pass changes... */
  lemma {:induction false} SecondPassChangesThePath()
    ensures ValidatedPath(Some("/ a")) == Ok(" a") && ValidatedPath(Some(" a")) == Ok("a")
  {
    OneDirectory("/ a", " a");
    assert Text.TrimLeft(" a") == "a" by {
      assert " a"[1..] == "a";
    }
    OneDirectory(" a", "a");
  }

  /** ...and one that it refuses. */
  lemma {:induction false} SecondPassRefusesThePath()
    ensures ValidatedPath(Some("/~k")) == Ok("~k") && ValidatedPath(Some("~k")) == Err(HomeDirectory)
  {
    OneDirectory("/~k", "~k");
    assert Text.Trim("~k") == "~k";
    assert ForwardSlashes("~k") == "~k";
  }
}
