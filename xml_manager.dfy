/**
 * The two passes of xml_manager.go over the configuration document.
 *
 * extractWorkshopIDsAndModifyXML takes every path element inside <playlists> or <mods>
 * whose path attribute is a workshop id (ASCII digits only) out of the document, together
 * with everything nested in it, and returns the ids in encounter order.
 *
 * addWorkshopPathsToXML puts one synthesized path element per downloaded id back in,
 * just before each </playlists> and </mods> end tag.
 */
module XmlManager {
  import opened Wrappers
  import opened XmlTokens
  import opened Types
  import Strconv
  import FilePath
  import opened Seqs

  const PlaylistsTag := "playlists"
  const ModsTag := "mods"
  const PathTag := "path"

  /** workshopIDRegex, ^\d+$: one or more ASCII digits and nothing else. */
  predicate IsWorkshopId(s: string) {
    |s| > 0 && Strconv.AllDigits(s)
  }

  /** The value of the first path attribute that is a workshop id; path attributes that are not are skipped. */
  function FirstWorkshopId(attrs: seq<Attr>): (r: Option<string>)
    ensures r.Some? ==> IsWorkshopId(r.value)
    ensures r.Some? <==> exists i :: 0 <= i < |attrs| && attrs[i].name == PathTag && IsWorkshopId(attrs[i].value)
  {
    if attrs == [] then None
    else if attrs[0].name == PathTag && IsWorkshopId(attrs[0].value) then Some(attrs[0].value)
    else
      var r := FirstWorkshopId(attrs[1..]);
      assert forall i :: 1 <= i < |attrs| ==> attrs[i] == attrs[1..][i - 1];
      r
  }

  /** FirstWorkshopId is the value at the first index holding a workshop-id path attribute. */
  lemma {:induction false} FirstWorkshopIdIsFirst(attrs: seq<Attr>)
    requires FirstWorkshopId(attrs).Some?
    ensures exists i :: (0 <= i < |attrs| && attrs[i].name == PathTag && attrs[i].value == FirstWorkshopId(attrs).value
      && forall j :: 0 <= j < i ==> !(attrs[j].name == PathTag && IsWorkshopId(attrs[j].value)))
  {
    if !(attrs[0].name == PathTag && IsWorkshopId(attrs[0].value)) {
      var rest := attrs[1..];
      FirstWorkshopIdIsFirst(rest);
      var k :| (0 <= k < |rest| && rest[k].name == PathTag && rest[k].value == FirstWorkshopId(rest).value
        && forall j :: 0 <= j < k ==> !(rest[j].name == PathTag && IsWorkshopId(rest[j].value)));
      assert attrs[k + 1] == rest[k];
      forall j | 0 <= j < k + 1
        ensures !(attrs[j].name == PathTag && IsWorkshopId(attrs[j].value))
      {
        if j > 0 { assert attrs[j] == rest[j - 1]; }
      }
    }
  }

  /** The attribute loop of the extraction pass, which stops at the first workshop id. */
  method FindWorkshopId(attrs: seq<Attr>) returns (r: Option<string>)
    ensures r == FirstWorkshopId(attrs)
  {
    var i := 0;
    while i < |attrs|
      invariant 0 <= i <= |attrs|
      invariant FirstWorkshopId(attrs) == FirstWorkshopId(attrs[i..])
    {
      assert attrs[i..][1..] == attrs[i + 1..];
      if attrs[i].name == PathTag {
        if Strconv.AllDigits(attrs[i].value) && |attrs[i].value| > 0 {
          return Some(attrs[i].value);
        }
      }
      i := i + 1;
    }
    return None;
  }

  // ---------------------------------------------------------------------------------------
  // Extraction
  // ---------------------------------------------------------------------------------------

  /** What the extraction pass does with one token. */
  datatype Action =
    | Keep                               // encoded to the output
    | Drop                               // inside an element being skipped
    | Extract(kind: ItemKind, id: string)  // a workshop path element: id recorded, element skipped

  /** The variables inPlaylists, inMods, skipElement and depth of the extraction loop. */
  datatype Scan = Scan(inPlaylists: bool, inMods: bool, skipping: bool, depth: int)

  const Initial := Scan(false, false, false, 0)

  /** One iteration of the extraction loop: the new variables and the fate of the token. */
  function Step(s: Scan, t: Token): (Scan, Action) {
    if s.skipping then
      var d := if t.Start? then s.depth + 1 else if t.End? then s.depth - 1 else s.depth;
      (s.(skipping := d != 0, depth := d), Drop)
    else
      match t
      case Start(name, attrs) =>
        if name == PlaylistsTag then (s.(inPlaylists := true, inMods := false), Keep)
        else if name == ModsTag then (s.(inPlaylists := false, inMods := true), Keep)
        else if (s.inPlaylists || s.inMods) && name == PathTag && FirstWorkshopId(attrs).Some? then
          (s.(skipping := true, depth := 1),
           Extract(if s.inPlaylists then Playlist else Mod, FirstWorkshopId(attrs).value))
        else (s, Keep)
      case End(name) =>
        if name == PlaylistsTag then (s.(inPlaylists := false), Keep)
        else if name == ModsTag then (s.(inMods := false), Keep)
        else (s, Keep)
      case Other(_) => (s, Keep)
  }

  /** The loop variables after the given tokens. */
  function After(ts: seq<Token>): Scan {
    if ts == [] then Initial else Step(After(ts[..|ts| - 1]), ts[|ts| - 1]).0
  }

  /** The fate of each token. */
  function Actions(ts: seq<Token>): (acts: seq<Action>)
    ensures |acts| == |ts|
  {
    if ts == [] then [] else Actions(ts[..|ts| - 1]) + [Step(After(ts[..|ts| - 1]), ts[|ts| - 1]).1]
  }

  /** The tokens whose action is Keep, in order. */
  function Kept(ts: seq<Token>, acts: seq<Action>): seq<Token>
    requires |acts| == |ts|
  {
    if ts == [] then []
    else Kept(ts[..|ts| - 1], acts[..|ts| - 1]) + (if acts[|ts| - 1].Keep? then [ts[|ts| - 1]] else [])
  }

  /** The ids extracted for one kind of item, in order. */
  function IdsOf(acts: seq<Action>, kind: ItemKind): seq<string> {
    if acts == [] then []
    else
      var a := acts[|acts| - 1];
      IdsOf(acts[..|acts| - 1], kind) + (if a.Extract? && a.kind == kind then [a.id] else [])
  }

  /** The number of Drop actions. */
  function Drops(acts: seq<Action>): nat {
    if acts == [] then 0 else Drops(acts[..|acts| - 1]) + (if acts[|acts| - 1].Drop? then 1 else 0)
  }

  /** How the loop variables and the results grow by one token. */
  lemma ExtendByOne(ts: seq<Token>, i: int)
    requires 0 <= i < |ts|
    ensures var next := Step(After(ts[..i]), ts[i]);
      && After(ts[..i + 1]) == next.0
      && Actions(ts[..i + 1]) == Actions(ts[..i]) + [next.1]
      && Kept(ts[..i + 1], Actions(ts[..i + 1]))
         == Kept(ts[..i], Actions(ts[..i])) + (if next.1.Keep? then [ts[i]] else [])
      && (forall k :: (IdsOf(Actions(ts[..i + 1]), k)
            == IdsOf(Actions(ts[..i]), k) + (if next.1.Extract? && next.1.kind == k then [next.1.id] else [])))
  {
    var p := ts[..i + 1];
    assert p[..i] == ts[..i];
    var acts := Actions(p);
    assert acts[..i] == Actions(ts[..i]);
  }

  /** The extraction loop's variables, once they reflect one more token, reflect the longer input. */
  lemma Advance(seen: seq<Token>, t: Token, s: Scan, pl: seq<string>, md: seq<string>, out: seq<Token>)
    requires var next := Step(After(seen), t);
      && s == next.0
      && out == Kept(seen, Actions(seen)) + (if next.1.Keep? then [t] else [])
      && pl == IdsOf(Actions(seen), Playlist) + (if next.1.Extract? && next.1.kind == Playlist then [next.1.id] else [])
      && md == IdsOf(Actions(seen), Mod) + (if next.1.Extract? && next.1.kind == Mod then [next.1.id] else [])
    ensures s == After(seen + [t])
    ensures pl == IdsOf(Actions(seen + [t]), Playlist)
    ensures md == IdsOf(Actions(seen + [t]), Mod)
    ensures out == Kept(seen + [t], Actions(seen + [t]))
  {
    var ts := seen + [t];
    assert ts[..|seen|] == seen;
    ExtendByOne(ts, |seen|);
    assert ts[..|seen| + 1] == ts;
  }

  /** The three results of a successful extraction pass. */
  datatype Extraction = Extraction(playlistIDs: seq<string>, modIDs: seq<string>, doc: seq<Token>)

  function Extracted(ts: seq<Token>): Extraction {
    var acts := Actions(ts);
    Extraction(IdsOf(acts, Playlist), IdsOf(acts, Mod), Kept(ts, acts))
  }

  /**
   * One iteration of the extraction loop: the loop variables after the token, and the
   * results with the token encoded or its id recorded, as the action Step gives it says.
   */
  method ExtractToken(s: Scan, token: Token, playlistIDs: seq<string>, modIDs: seq<string>, output: seq<Token>)
    returns (s': Scan, playlistIDs': seq<string>, modIDs': seq<string>, output': seq<Token>)
    ensures var next := Step(s, token);
      && s' == next.0
      && output' == output + (if next.1.Keep? then [token] else [])
      && playlistIDs' == playlistIDs + (if next.1.Extract? && next.1.kind == Playlist then [next.1.id] else [])
      && modIDs' == modIDs + (if next.1.Extract? && next.1.kind == Mod then [next.1.id] else [])
  {
    var inPlaylists, inMods, skipElement, depth := s.inPlaylists, s.inMods, s.skipping, s.depth;
    playlistIDs', modIDs', output' := playlistIDs, modIDs, output;
    if skipElement {
      if token.Start? {
        depth := depth + 1;
      } else if token.End? {
        depth := depth - 1;
      }
      if depth == 0 {
        skipElement := false;
      }
    } else {
      match token
      case Start(name, attrs) =>
        var isWorkshopPath := false;
        if name == PlaylistsTag {
          inPlaylists := true;
          inMods := false;
        } else if name == ModsTag {
          inPlaylists := false;
          inMods := true;
        } else if (inPlaylists || inMods) && name == PathTag {
          var id := FindWorkshopId(attrs);
          if id.Some? {
            isWorkshopPath := true;
            if inPlaylists {
              playlistIDs' := playlistIDs' + [id.value];
            } else {
              modIDs' := modIDs' + [id.value];
            }
          }
        }
        if isWorkshopPath {
          skipElement := true;
          depth := 1;
        } else {
          output' := output' + [token];
        }
      case End(name) =>
        output' := output' + [token];
        if name == PlaylistsTag {
          inPlaylists := false;
        } else if name == ModsTag {
          inMods := false;
        }
      case Other(_) =>
        output' := output' + [token];
    }
    s' := Scan(inPlaylists, inMods, skipElement, depth);
  }

  /**
   * extractWorkshopIDsAndModifyXML: the ids and the document without their elements, or an
   * error and no results at all when the decoder fails on the document.
   */
  method ExtractWorkshopIDsAndModifyXml(doc: Decoded) returns (r: Result<Extraction, XmlError>)
    ensures r.Err? <==> doc.failed
    ensures r.Ok? ==> r.value == Extracted(doc.tokens)
  {
    var ts := doc.tokens;
    var scan := Initial;
    var playlistIDs: seq<string> := [];
    var modIDs: seq<string> := [];
    var output: seq<Token> := [];
    var i := 0;
    ghost var seen: seq<Token> := [];
    while i < |ts|
      invariant 0 <= i <= |ts| && seen == ts[..i]
      invariant scan == After(seen)
      invariant playlistIDs == IdsOf(Actions(seen), Playlist)
      invariant modIDs == IdsOf(Actions(seen), Mod)
      invariant output == Kept(seen, Actions(seen))
    {
      var token := ts[i];
      scan, playlistIDs, modIDs, output := ExtractToken(scan, token, playlistIDs, modIDs, output);
      Advance(seen, token, scan, playlistIDs, modIDs, output);
      TakeOneMore(ts, i);
      seen := seen + [token];
      i := i + 1;
    }
    if doc.failed {
      return Err(TokenReadError);
    }
    assert seen == ts;
    return Ok(Extraction(playlistIDs, modIDs, output));
  }

  // ---------------------------------------------------------------------------------------
  // Properties of the extraction pass
  // ---------------------------------------------------------------------------------------

  lemma {:induction false} ActionsPrefix(ts: seq<Token>, j: int)
    requires 0 <= j <= |ts|
    ensures Actions(ts)[..j] == Actions(ts[..j])
    decreases |ts|
  {
    if j < |ts| {
      var init := ts[..|ts| - 1];
      assert init[..j] == ts[..j];
      ActionsPrefix(init, j);
    } else {
      assert ts[..j] == ts;
    }
  }

  /** The action for token i is the step taken from the variables the earlier tokens left. */
  lemma ActionAt(ts: seq<Token>, i: int)
    requires 0 <= i < |ts|
    ensures Actions(ts)[i] == Step(After(ts[..i]), ts[i]).1
  {
    ActionsPrefix(ts, i + 1);
    ExtendByOne(ts, i);
  }

  /**
   * The loop variables stay consistent: at most one container flag is set, and depth is
   * positive exactly while an element is being skipped (zero otherwise).
   */
  ghost predicate Consistent(s: Scan) {
    !(s.inPlaylists && s.inMods) && 0 <= s.depth && (s.skipping <==> 0 < s.depth)
  }

  lemma {:induction false} AfterConsistent(ts: seq<Token>)
    ensures Consistent(After(ts))
  {
    if ts != [] {
      AfterConsistent(ts[..|ts| - 1]);
    }
  }

  /** The element a token opens is taken out as a workshop item in scan state s. */
  predicate IsWorkshopPathIn(s: Scan, t: Token) {
    (s.inPlaylists || s.inMods) && t.Start? && t.name == PathTag && FirstWorkshopId(t.attrs).Some?
  }

  /**
   * Each token is dropped exactly while an element is being skipped, extracted exactly when it
   * opens a path element with a workshop id inside a container (as a playlist inside
   * <playlists>, as a mod inside <mods>), and kept otherwise.
   */
  lemma ActionClassified(ts: seq<Token>, i: int)
    requires 0 <= i < |ts|
    ensures var s := After(ts[..i]);
      && (Actions(ts)[i].Drop? <==> s.skipping)
      && (Actions(ts)[i].Extract? <==> !s.skipping && IsWorkshopPathIn(s, ts[i]))
      && (Actions(ts)[i].Keep? <==> !s.skipping && !IsWorkshopPathIn(s, ts[i]))
      && (Actions(ts)[i].Extract? ==>
            Actions(ts)[i] == Extract(if s.inPlaylists then Playlist else Mod, FirstWorkshopId(ts[i].attrs).value))
  {
    ActionAt(ts, i);
    StepClassified(After(ts[..i]), ts[i]);
  }

  /** The classification of one step, for any loop variables and token. */
  lemma StepClassified(s: Scan, t: Token)
    ensures var a := Step(s, t).1;
      && (a.Drop? <==> s.skipping)
      && (a.Extract? <==> !s.skipping && IsWorkshopPathIn(s, t))
      && (a.Keep? <==> !s.skipping && !IsWorkshopPathIn(s, t))
      && (a.Extract? ==> a == Extract(if s.inPlaylists then Playlist else Mod, FirstWorkshopId(t.attrs).value))
  {
  }

  /** Opening a container sets its flag and clears the other; its end tag clears only its own flag. */
  lemma ContainerFlags(ts: seq<Token>, i: int)
    requires 0 <= i < |ts| && !After(ts[..i]).skipping
    ensures var s, s' := After(ts[..i]), After(ts[..i + 1]);
      && (ts[i].Start? && ts[i].name == PlaylistsTag ==> s'.inPlaylists && !s'.inMods)
      && (ts[i].Start? && ts[i].name == ModsTag ==> !s'.inPlaylists && s'.inMods)
      && (ts[i] == End(PlaylistsTag) ==> !s'.inPlaylists && s'.inMods == s.inMods)
      && (ts[i] == End(ModsTag) ==> s'.inPlaylists == s.inPlaylists && !s'.inMods)
  {
    ExtendByOne(ts, i);
  }

  lemma {:induction false} IdsAreExtracted(acts: seq<Action>, k: ItemKind)
    ensures forall id :: id in IdsOf(acts, k) ==> exists i :: 0 <= i < |acts| && acts[i] == Extract(k, id)
  {
    if acts != [] {
      var init := acts[..|acts| - 1];
      IdsAreExtracted(init, k);
      forall id | id in IdsOf(acts, k)
        ensures exists i :: 0 <= i < |acts| && acts[i] == Extract(k, id)
      {
        if id in IdsOf(init, k) {
          var i :| 0 <= i < |init| && init[i] == Extract(k, id);
          assert acts[i] == init[i];
        } else {
          assert acts[|acts| - 1] == Extract(k, id);
        }
      }
    }
  }

  /**
   * Every extracted playlist id (mod id) is the first workshop id among the path attributes of
   * a path element met inside <playlists> (<mods>).
   */
  lemma ExtractedIdsOrigin(ts: seq<Token>, k: ItemKind, id: string)
    requires id in Extracted(ts).playlistIDs + Extracted(ts).modIDs
    requires k == (if id in Extracted(ts).playlistIDs then Playlist else Mod)
    ensures IsWorkshopId(id)
    ensures exists i :: (0 <= i < |ts| && ts[i].Start? && ts[i].name == PathTag
      && FirstWorkshopId(ts[i].attrs) == Some(id)
      && (if k == Playlist then After(ts[..i]).inPlaylists else After(ts[..i]).inMods))
  {
    var acts := Actions(ts);
    IdsAreExtracted(acts, k);
    var i :| 0 <= i < |acts| && acts[i] == Extract(k, id);
    ActionClassified(ts, i);
    AfterConsistent(ts[..i]);
  }

  lemma {:induction false} ExtractionCounts(ts: seq<Token>, acts: seq<Action>)
    requires |acts| == |ts|
    ensures |Kept(ts, acts)| + Drops(acts) + |IdsOf(acts, Playlist)| + |IdsOf(acts, Mod)| == |ts|
  {
    if ts != [] {
      ExtractionCounts(ts[..|ts| - 1], acts[..|ts| - 1]);
    }
  }

  /**
   * Each token goes exactly one way: into the output, into a skipped element, or as an extracted
   * element's start tag, one per extracted id.
   */
  lemma TokensAccounted(ts: seq<Token>)
    ensures var e := Extracted(ts);
      |e.doc| + Drops(Actions(ts)) + |e.playlistIDs| + |e.modIDs| == |ts|
  {
    ExtractionCounts(ts, Actions(ts));
  }

  /** A last action that yields no id leaves no id to the actions before it, and is not an extraction. */
  lemma NoIdsInit(acts: seq<Action>)
    requires acts != []
    requires IdsOf(acts, Playlist) == [] && IdsOf(acts, Mod) == []
    ensures IdsOf(acts[..|acts| - 1], Playlist) == [] && IdsOf(acts[..|acts| - 1], Mod) == []
    ensures !acts[|acts| - 1].Extract?
  {
  }

  /** Outside a skipped element, a token that is not extracted is kept and starts no skipping. */
  lemma NotExtractedIsKept(s: Scan, t: Token)
    requires !s.skipping && !Step(s, t).1.Extract?
    ensures Step(s, t).1.Keep? && !Step(s, t).0.skipping
  {
  }

  /** A document from which nothing is extracted comes out unchanged. */
  lemma {:induction false} NoIdsNoChange(ts: seq<Token>)
    requires Extracted(ts).playlistIDs == [] && Extracted(ts).modIDs == []
    ensures Extracted(ts).doc == ts
    ensures !After(ts).skipping
  {
    if ts != [] {
      var n := |ts| - 1;
      var init := ts[..n];
      var acts := Actions(ts);
      NoIdsInit(acts);
      assert acts[..n] == Actions(init);
      NoIdsNoChange(init);
      NotExtractedIsKept(After(init), ts[n]);
      assert Kept(ts, acts) == Kept(init, Actions(init)) + [ts[n]];
      assert init + [ts[n]] == ts;
    }
  }

  /** The difference between the numbers of start and end tags. */
  function Balance(ts: seq<Token>): int {
    if ts == [] then 0
    else Balance(ts[..|ts| - 1]) + (if ts[|ts| - 1].Start? then 1 else if ts[|ts| - 1].End? then -1 else 0)
  }

  /** Extracting an element starts skipping at depth one from an idle scan. */
  lemma ExtractStartsSkip(ts: seq<Token>, i: int)
    requires 0 <= i < |ts| && Actions(ts)[i].Extract?
    ensures var s := After(ts[..i]);
      && !s.skipping && s.depth == 0 && ts[i].Start?
      && After(ts[..i + 1]) == Scan(s.inPlaylists, s.inMods, true, 1)
  {
    ActionClassified(ts, i);
    ExtendByOne(ts, i);
    AfterConsistent(ts[..i]);
  }

  lemma BalanceSnoc(ts: seq<Token>, i: int, j: int)
    requires 0 <= i <= j < |ts|
    ensures Balance(ts[i..j + 1]) == Balance(ts[i..j]) + (if ts[j].Start? then 1 else if ts[j].End? then -1 else 0)
  {
    assert ts[i..j + 1][..j - i] == ts[i..j];
  }

  /**
   * An extracted element is skipped up to and including its matching end tag (the first point
   * where its start and end tags balance), whatever it contains, with the nesting depth
   * counting the open tags.
   */
  lemma {:induction false} SkippedSubtree(ts: seq<Token>, i: int, j: int)
    requires 0 <= i < j < |ts|
    requires Actions(ts)[i].Extract?
    requires forall m :: i < m <= j ==> Balance(ts[i..m]) > 0
    ensures Actions(ts)[j] == Drop
    ensures var s, b := After(ts[..i]), Balance(ts[i..j + 1]);
      After(ts[..j + 1]) == Scan(s.inPlaylists, s.inMods, b != 0, b)
    decreases j
  {
    var s := After(ts[..i]);
    var b := Balance(ts[i..j]);
    assert b > 0;
    if j == i + 1 {
      ExtractStartsSkip(ts, i);
      BalanceSnoc(ts, i, i);
    } else {
      SkippedSubtree(ts, i, j - 1);
    }
    assert After(ts[..j]) == Scan(s.inPlaylists, s.inMods, true, b);
    ExtendByOne(ts, j);
    ActionAt(ts, j);
    BalanceSnoc(ts, i, j);
  }

  /** After the matching end tag of an extracted element the loop variables are what they were before it. */
  lemma SkipEndsAtMatchingEnd(ts: seq<Token>, i: int, j: int)
    requires 0 <= i < j < |ts|
    requires Actions(ts)[i].Extract?
    requires forall m :: i < m <= j ==> Balance(ts[i..m]) > 0
    requires Balance(ts[i..j + 1]) == 0
    ensures After(ts[..j + 1]) == After(ts[..i])
  {
    SkippedSubtree(ts, i, j);
    ExtractStartsSkip(ts, i);
  }

  lemma {:induction false} KeptPrefix(ts: seq<Token>, acts: seq<Action>, j: int)
    requires |acts| == |ts| && 0 <= j <= |ts|
    ensures Kept(ts[..j], acts[..j]) <= Kept(ts, acts)
    decreases |ts|
  {
    if j < |ts| {
      var n := |ts| - 1;
      assert ts[..n][..j] == ts[..j] && acts[..n][..j] == acts[..j];
      KeptPrefix(ts[..n], acts[..n], j);
    } else {
      assert ts[..j] == ts && acts[..j] == acts;
    }
  }

  /** A kept token sits in the output right after the tokens kept before it. */
  lemma KeptPosition(ts: seq<Token>, i: int)
    requires 0 <= i < |ts| && Actions(ts)[i].Keep?
    ensures var o, p := Extracted(ts).doc, |Kept(ts[..i], Actions(ts[..i]))|;
      p < |o| && o[p] == ts[i]
  {
    ExtendByOne(ts, i);
    ActionAt(ts, i);
    var acts := Actions(ts);
    ActionsPrefix(ts, i + 1);
    KeptPrefix(ts, acts, i + 1);
    assert ts[..i + 1] == ts[..i + 1] && acts[..i + 1] == Actions(ts[..i + 1]);
  }

  /** Kept tokens keep their relative order. */
  lemma KeptInOrder(ts: seq<Token>, i: int, j: int)
    requires 0 <= i < j < |ts| && Actions(ts)[i].Keep? && Actions(ts)[j].Keep?
    ensures exists p, q :: 0 <= p < q < |Extracted(ts).doc| && Extracted(ts).doc[p] == ts[i] && Extracted(ts).doc[q] == ts[j]
  {
    KeptPosition(ts, i);
    KeptPosition(ts, j);
    var acts := Actions(ts);
    ActionsPrefix(ts, i + 1);
    ActionsPrefix(ts, j);
    var tj, aj := ts[..j], Actions(ts[..j]);
    assert tj[..i + 1] == ts[..i + 1];
    assert aj == acts[..j];
    assert aj[..i + 1] == acts[..i + 1];
    KeptPrefix(tj, aj, i + 1);
    ExtendByOne(ts, i);
    ActionAt(ts, i);
  }

  // ---------------------------------------------------------------------------------------
  // Reinsertion
  // ---------------------------------------------------------------------------------------

  const MissionsPrefix := "/rom/data/workshop_missions/"

  /** The path value written for a downloaded playlist. */
  function PlaylistPath(id: string): string {
    MissionsPrefix + id
  }

  /** The path value written for a downloaded mod: joined under the config directory, then with backslashes. */
  function ModPath(configDir: string, id: string): string {
    FilePath.ToBackslashes(FilePath.Join([configDir, "rom", "data", "workshop_mods", id]))
  }

  function PlaylistPaths(ids: seq<string>): (r: seq<string>)
    ensures |r| == |ids| && forall k :: 0 <= k < |ids| ==> r[k] == PlaylistPath(ids[k])
  {
    seq(|ids|, k requires 0 <= k < |ids| => PlaylistPath(ids[k]))
  }

  function ModPaths(ids: seq<string>, configDir: string): (r: seq<string>)
    ensures |r| == |ids| && forall k :: 0 <= k < |ids| ==> r[k] == ModPath(configDir, ids[k])
  {
    seq(|ids|, k requires 0 <= k < |ids| => ModPath(configDir, ids[k]))
  }

  /** An empty path element: its start tag with the single path attribute, then its end tag. */
  function PathElement(v: string): seq<Token> {
    [Start(PathTag, [Attr(PathTag, v)]), End(PathTag)]
  }

  /** One path element per value, in order. */
  function Elements(paths: seq<string>): (r: seq<Token>)
    ensures |r| == 2 * |paths|
  {
    if paths == [] then [] else Elements(paths[..|paths| - 1]) + PathElement(paths[|paths| - 1])
  }

  /** Element k of the list occupies tokens 2k and 2k + 1. */
  lemma {:induction false} ElementsAt(paths: seq<string>, k: int)
    requires 0 <= k < |paths|
    ensures Elements(paths)[2 * k] == Start(PathTag, [Attr(PathTag, paths[k])])
    ensures Elements(paths)[2 * k + 1] == End(PathTag)
    decreases |paths|
  {
    var init := paths[..|paths| - 1];
    if k < |paths| - 1 {
      assert init[k] == paths[k];
      ElementsAt(init, k);
    }
  }

  /** The elements written just before token t. */
  function Inserted(t: Token, playlistIDs: seq<string>, modIDs: seq<string>, configDir: string): seq<Token> {
    if t.End? && t.name == PlaylistsTag && |playlistIDs| > 0 then Elements(PlaylistPaths(playlistIDs))
    else if t.End? && t.name == ModsTag && |modIDs| > 0 then Elements(ModPaths(modIDs, configDir))
    else []
  }

  /** The output of the reinsertion pass for the tokens the decoder yielded. */
  function WithPaths(ts: seq<Token>, playlistIDs: seq<string>, modIDs: seq<string>, configDir: string): seq<Token> {
    if ts == [] then []
    else
      var t := ts[|ts| - 1];
      WithPaths(ts[..|ts| - 1], playlistIDs, modIDs, configDir) + Inserted(t, playlistIDs, modIDs, configDir) + [t]
  }

  lemma ElementsSnoc(paths: seq<string>, p: string)
    ensures Elements(paths + [p]) == Elements(paths) + PathElement(p)
  {
    assert (paths + [p])[..|paths|] == paths;
  }

  lemma WithPathsAppend(seen: seq<Token>, t: Token, playlistIDs: seq<string>, modIDs: seq<string>, configDir: string)
    ensures WithPaths(seen + [t], playlistIDs, modIDs, configDir)
      == WithPaths(seen, playlistIDs, modIDs, configDir) + Inserted(t, playlistIDs, modIDs, configDir) + [t]
  {
    assert (seen + [t])[..|seen|] == seen;
  }

  lemma WithPathsSnoc(ts: seq<Token>, i: int, playlistIDs: seq<string>, modIDs: seq<string>, configDir: string)
    requires 0 <= i < |ts|
    ensures WithPaths(ts[..i + 1], playlistIDs, modIDs, configDir)
      == WithPaths(ts[..i], playlistIDs, modIDs, configDir) + Inserted(ts[i], playlistIDs, modIDs, configDir) + [ts[i]]
  {
    assert ts[..i + 1][..i] == ts[..i];
  }

  /** The loop over the playlist ids: one path element each, in list order. */
  method EmitPlaylistPaths(out: seq<Token>, ids: seq<string>) returns (out': seq<Token>)
    ensures out' == out + Elements(PlaylistPaths(ids))
  {
    out' := out;
    ghost var paths := PlaylistPaths(ids);
    ghost var done: seq<string> := [];
    var k := 0;
    while k < |ids|
      invariant 0 <= k <= |ids| && done == paths[..k]
      invariant out' == out + Elements(done)
    {
      var playlistPath := MissionsPrefix + ids[k];
      out' := out' + [Start(PathTag, [Attr(PathTag, playlistPath)])];
      out' := out' + [End(PathTag)];
      ElementsSnoc(done, playlistPath);
      TakeOneMore(paths, k);
      done := done + [playlistPath];
      k := k + 1;
    }
    assert paths[..k] == paths;
  }

  /** The loop over the mod ids: one path element each, in list order. */
  method EmitModPaths(out: seq<Token>, ids: seq<string>, configDir: string) returns (out': seq<Token>)
    ensures out' == out + Elements(ModPaths(ids, configDir))
  {
    out' := out;
    ghost var paths := ModPaths(ids, configDir);
    ghost var done: seq<string> := [];
    var k := 0;
    while k < |ids|
      invariant 0 <= k <= |ids| && done == paths[..k]
      invariant out' == out + Elements(done)
    {
      var modPathTemp := FilePath.Join([configDir, "rom", "data", "workshop_mods", ids[k]]);
      var modPathFinal := FilePath.ToBackslashes(modPathTemp);
      out' := out' + [Start(PathTag, [Attr(PathTag, modPathFinal)])];
      out' := out' + [End(PathTag)];
      ElementsSnoc(done, modPathFinal);
      TakeOneMore(paths, k);
      done := done + [modPathFinal];
      k := k + 1;
    }
    assert paths[..k] == paths;
  }

  /** The path elements written in front of one token: the playlists' or the mods' before their end tag. */
  method EmitBefore(output: seq<Token>, token: Token, playlistIDs: seq<string>, modIDs: seq<string>, configDir: string)
    returns (output': seq<Token>)
    ensures output' == output + Inserted(token, playlistIDs, modIDs, configDir)
  {
    output' := output;
    if token.End? {
      if token.name == PlaylistsTag && |playlistIDs| > 0 {
        output' := EmitPlaylistPaths(output', playlistIDs);
      } else if token.name == ModsTag && |modIDs| > 0 {
        output' := EmitModPaths(output', modIDs, configDir);
      }
    }
  }

  /**
   * addWorkshopPathsToXML: the document with the path elements of the downloaded items in
   * front of each container end tag, or an error and no output when the decoder fails.
   */
  method AddWorkshopPathsToXml(doc: Decoded, playlistIDs: seq<string>, modIDs: seq<string>, configDir: string)
    returns (r: Result<seq<Token>, XmlError>)
    ensures r.Err? <==> doc.failed
    ensures r.Ok? ==> r.value == WithPaths(doc.tokens, playlistIDs, modIDs, configDir)
  {
    var ts := doc.tokens;
    var output: seq<Token> := [];
    var i := 0;
    ghost var seen: seq<Token> := [];
    while i < |ts|
      invariant 0 <= i <= |ts| && seen == ts[..i]
      invariant output == WithPaths(seen, playlistIDs, modIDs, configDir)
    {
      var token := ts[i];
      output := EmitBefore(output, token, playlistIDs, modIDs, configDir);
      output := output + [token];
      WithPathsAppend(seen, token, playlistIDs, modIDs, configDir);
      TakeOneMore(ts, i);
      seen := seen + [token];
      i := i + 1;
    }
    if doc.failed {
      return Err(TokenReadError);
    }
    assert ts[..i] == ts;
    return Ok(output);
  }

  // ---------------------------------------------------------------------------------------
  // Properties of the reinsertion pass
  // ---------------------------------------------------------------------------------------

  /** A document with no container end tag that receives elements comes out unchanged. */
  lemma {:induction false} NothingInsertedNoChange(ts: seq<Token>, playlistIDs: seq<string>, modIDs: seq<string>, configDir: string)
    requires forall i :: 0 <= i < |ts| ==> Inserted(ts[i], playlistIDs, modIDs, configDir) == []
    ensures WithPaths(ts, playlistIDs, modIDs, configDir) == ts
  {
    if ts != [] {
      var n := |ts| - 1;
      NothingInsertedNoChange(ts[..n], playlistIDs, modIDs, configDir);
      WithPathsSnoc(ts, n, playlistIDs, modIDs, configDir);
      assert Inserted(ts[n], playlistIDs, modIDs, configDir) == [];
      assert ts[..n + 1] == ts;
      assert ts[..n] + [ts[n]] == ts;
    }
  }

  /** With no downloaded items the reinsertion pass changes nothing. */
  lemma NoSuccessesNoChange(ts: seq<Token>, configDir: string)
    ensures WithPaths(ts, [], [], configDir) == ts
  {
    NothingInsertedNoChange(ts, [], [], configDir);
  }

  /** The number of end tags with the given name. */
  function EndTags(ts: seq<Token>, name: string): nat {
    if ts == [] then 0 else EndTags(ts[..|ts| - 1], name) + (if ts[|ts| - 1] == End(name) then 1 else 0)
  }

  lemma InsertedLength(t: Token, playlistIDs: seq<string>, modIDs: seq<string>, configDir: string)
    ensures |Inserted(t, playlistIDs, modIDs, configDir)|
      == (if t == End(PlaylistsTag) then 2 * |playlistIDs| else 0) + (if t == End(ModsTag) then 2 * |modIDs| else 0)
  {
  }

  /** The length bookkeeping of one step of WithPathsLength, on plain numbers. */
  lemma LengthStep(total: int, prev: int, n: int, a: int, b: int, e1: int, e2: int, hit1: bool, hit2: bool, count1: int, count2: int)
    requires prev == n + a * e1 + b * e2
    requires total == prev + ((if hit1 then a else 0) + (if hit2 then b else 0)) + 1
    requires count1 == e1 + (if hit1 then 1 else 0) && count2 == e2 + (if hit2 then 1 else 0)
    ensures total == (n + 1) + a * count1 + b * count2
  {
  }

  /** Two tokens (start and end tag) per id, before every end tag of the matching container. */
  lemma {:induction false} WithPathsLength(ts: seq<Token>, playlistIDs: seq<string>, modIDs: seq<string>, configDir: string)
    ensures |WithPaths(ts, playlistIDs, modIDs, configDir)|
      == |ts| + 2 * |playlistIDs| * EndTags(ts, PlaylistsTag) + 2 * |modIDs| * EndTags(ts, ModsTag)
  {
    if ts != [] {
      var n := |ts| - 1;
      var init, t := ts[..n], ts[n];
      WithPathsLength(init, playlistIDs, modIDs, configDir);
      WithPathsSnoc(ts, n, playlistIDs, modIDs, configDir);
      InsertedLength(t, playlistIDs, modIDs, configDir);
      assert ts[..n + 1] == ts;
      LengthStep(|WithPaths(ts, playlistIDs, modIDs, configDir)|, |WithPaths(init, playlistIDs, modIDs, configDir)|,
        n, 2 * |playlistIDs|, 2 * |modIDs|, EndTags(init, PlaylistsTag), EndTags(init, ModsTag),
        t == End(PlaylistsTag), t == End(ModsTag), EndTags(ts, PlaylistsTag), EndTags(ts, ModsTag));
    }
  }

  lemma {:induction false} WithPathsPrefix(ts: seq<Token>, j: int, playlistIDs: seq<string>, modIDs: seq<string>, configDir: string)
    requires 0 <= j <= |ts|
    ensures WithPaths(ts[..j], playlistIDs, modIDs, configDir) <= WithPaths(ts, playlistIDs, modIDs, configDir)
    decreases |ts|
  {
    if j < |ts| {
      var n := |ts| - 1;
      assert ts[..n][..j] == ts[..j];
      WithPathsPrefix(ts[..n], j, playlistIDs, modIDs, configDir);
    } else {
      assert ts[..j] == ts;
    }
  }

  /**
   * Every input token appears in the output, in input order, immediately preceded by the
   * elements inserted for it (path elements for a container end tag, nothing otherwise): the
   * output up to token i is the output for the tokens before it, those elements and the token.
   */
  lemma InputKeptWithInsertions(ts: seq<Token>, i: int, playlistIDs: seq<string>, modIDs: seq<string>, configDir: string)
    requires 0 <= i < |ts|
    ensures WithPaths(ts[..i], playlistIDs, modIDs, configDir) + Inserted(ts[i], playlistIDs, modIDs, configDir) + [ts[i]]
      <= WithPaths(ts, playlistIDs, modIDs, configDir)
  {
    WithPathsSnoc(ts, i, playlistIDs, modIDs, configDir);
    WithPathsPrefix(ts, i + 1, playlistIDs, modIDs, configDir);
  }

  /** Before a </playlists> the k-th inserted element carries the path of the k-th downloaded playlist. */
  lemma PlaylistElementsInOrder(playlistIDs: seq<string>, modIDs: seq<string>, configDir: string, k: int)
    requires 0 <= k < |playlistIDs|
    ensures var ins := Inserted(End(PlaylistsTag), playlistIDs, modIDs, configDir);
      |ins| == 2 * |playlistIDs|
      && ins[2 * k] == Start(PathTag, [Attr(PathTag, "/rom/data/workshop_missions/" + playlistIDs[k])])
      && ins[2 * k + 1] == End(PathTag)
  {
    ElementsAt(PlaylistPaths(playlistIDs), k);
  }

  lemma JoinModPath(configDir: string, id: string)
    requires configDir != "" && id != ""
    ensures FilePath.Join([configDir, "rom", "data", "workshop_mods", id])
      == configDir + [FilePath.Separator] + "rom" + [FilePath.Separator] + "data"
         + [FilePath.Separator] + "workshop_mods" + [FilePath.Separator] + id
  {
    FilePath.JoinTwo(configDir, "rom");
    assert [configDir, "rom", "data"] == [configDir, "rom"] + ["data"];
    FilePath.JoinSnoc([configDir, "rom"], "data");
    assert [configDir, "rom", "data", "workshop_mods"] == [configDir, "rom", "data"] + ["workshop_mods"];
    FilePath.JoinSnoc([configDir, "rom", "data"], "workshop_mods");
    assert [configDir, "rom", "data", "workshop_mods", id] == [configDir, "rom", "data", "workshop_mods"] + [id];
    FilePath.JoinSnoc([configDir, "rom", "data", "workshop_mods"], id);
  }

  /**
   * A mod's path is the config directory with backslashes, then rom, data, workshop_mods and
   * the id, each after one backslash.
   */
  lemma ModPathShape(configDir: string, id: string)
    requires configDir != "" && IsWorkshopId(id)
    ensures ModPath(configDir, id) == FilePath.ToBackslashes(configDir) + [FilePath.Backslash] + "rom"
      + [FilePath.Backslash] + "data" + [FilePath.Backslash] + "workshop_mods" + [FilePath.Backslash] + id
  {
    JoinModPath(configDir, id);
    var sep := [FilePath.Separator];
    var a := configDir + sep + "rom";
    var b := a + sep + "data";
    var c := b + sep + "workshop_mods";
    FilePath.ToBackslashesStep(configDir, "rom");
    FilePath.ToBackslashesStep(a, "data");
    FilePath.ToBackslashesStep(b, "workshop_mods");
    assert FilePath.Separator !in id by {
      assert forall k :: 0 <= k < |id| ==> Strconv.IsDigit(id[k]);
    }
    FilePath.ToBackslashesStep(c, id);
  }

  /** The inserted path values are never workshop ids, so a later extraction pass leaves them in place. */
  lemma InsertedPathsNotExtracted(configDir: string, id: string)
    ensures FirstWorkshopId([Attr(PathTag, PlaylistPath(id))]) == None
    ensures FirstWorkshopId([Attr(PathTag, ModPath(configDir, id))]) == None
  {
    assert !Strconv.IsDigit(PlaylistPath(id)[0]);
    var elems := [configDir, "rom", "data", "workshop_mods", id];
    assert 'r' in elems[1];
    FilePath.JoinKeepsChars(elems, 1, 'r');
    var j := FilePath.Join(elems);
    var k :| 0 <= k < |j| && j[k] == 'r';
    assert ModPath(configDir, id)[k] == 'r';
  }
}
