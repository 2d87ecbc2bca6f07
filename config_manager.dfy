/**
 * updateXmlPort of config_manager.go: every server_data start element of the configuration
 * document gets a port attribute holding the new port, in place of each existing one or
 * appended when there is none; every other token passes through unchanged.
 */
module ConfigManager {
  import opened Wrappers
  import opened XmlTokens
  import Strconv
  import opened Seqs

  const ServerData := "server_data"
  const PortName := "port"

  predicate IsPort(a: Attr) {
    a.name == PortName
  }

  /** One attribute of a server_data element, as the attribute loop emits it. */
  function RewriteAttr(a: Attr, v: string): Attr {
    if IsPort(a) then Attr(PortName, v) else a
  }

  /** The attribute loop: each port attribute is replaced where it stands, the others are copied. */
  function ReplacePorts(attrs: seq<Attr>, v: string): (r: seq<Attr>)
    ensures |r| == |attrs|
  {
    if |attrs| == 0 then [] else ReplacePorts(attrs[..|attrs| - 1], v) + [RewriteAttr(attrs[|attrs| - 1], v)]
  }

  /** Each attribute is rewritten where it stands. */
  lemma {:induction false} ReplacePortsAt(attrs: seq<Attr>, v: string)
    ensures forall i :: 0 <= i < |attrs| ==> ReplacePorts(attrs, v)[i] == RewriteAttr(attrs[i], v)
  {
    if |attrs| > 0 {
      var init := attrs[..|attrs| - 1];
      ReplacePortsAt(init, v);
      forall i | 0 <= i < |attrs|
        ensures ReplacePorts(attrs, v)[i] == RewriteAttr(attrs[i], v)
      {
        if i < |init| {
          assert init[i] == attrs[i];
        }
      }
    }
  }

  predicate HasPort(attrs: seq<Attr>) {
    exists i :: 0 <= i < |attrs| && IsPort(attrs[i])
  }

  /** The attributes of a rewritten server_data element. */
  function WithPort(attrs: seq<Attr>, v: string): seq<Attr> {
    ReplacePorts(attrs, v) + (if HasPort(attrs) then [] else [Attr(PortName, v)])
  }

  /** The attributes other than port, in order. */
  function NonPort(attrs: seq<Attr>): seq<Attr> {
    if |attrs| == 0 then []
    else NonPort(attrs[..|attrs| - 1]) + (if IsPort(attrs[|attrs| - 1]) then [] else [attrs[|attrs| - 1]])
  }

  function RewriteToken(t: Token, v: string): Token {
    if t.Start? && t.name == ServerData then Start(t.name, WithPort(t.attrs, v)) else t
  }

  /** The token stream the encoder receives, for the tokens the decoder yielded. */
  function RewriteTokens(ts: seq<Token>, v: string): (r: seq<Token>)
    ensures |r| == |ts|
    ensures forall i :: 0 <= i < |ts| ==> r[i] == RewriteToken(ts[i], v)
  {
    if |ts| == 0 then [] else RewriteTokens(ts[..|ts| - 1], v) + [RewriteToken(ts[|ts| - 1], v)]
  }

  lemma ReplacePortsSnoc(attrs: seq<Attr>, a: Attr, v: string)
    ensures ReplacePorts(attrs + [a], v) == ReplacePorts(attrs, v) + [RewriteAttr(a, v)]
  {
    assert (attrs + [a])[..|attrs|] == attrs;
  }

  /** Whether a port attribute has been seen, as the attribute loop's flag records it. */
  predicate AnyPort(attrs: seq<Attr>) {
    |attrs| > 0 && (AnyPort(attrs[..|attrs| - 1]) || IsPort(attrs[|attrs| - 1]))
  }

  lemma AnyPortSnoc(attrs: seq<Attr>, a: Attr)
    ensures AnyPort(attrs + [a]) <==> AnyPort(attrs) || IsPort(a)
  {
    assert (attrs + [a])[..|attrs|] == attrs;
  }

  lemma {:induction false} AnyPortIsHasPort(attrs: seq<Attr>)
    ensures AnyPort(attrs) <==> HasPort(attrs)
  {
    if |attrs| > 0 {
      var init := attrs[..|attrs| - 1];
      AnyPortIsHasPort(init);
      if HasPort(init) {
        var j :| 0 <= j < |init| && IsPort(init[j]);
        assert IsPort(attrs[j]);
      }
      if HasPort(attrs) && !IsPort(attrs[|attrs| - 1]) {
        var j :| 0 <= j < |attrs| && IsPort(attrs[j]);
        assert IsPort(init[j]);
      }
    }
  }

  lemma RewriteTokensSnoc(ts: seq<Token>, t: Token, v: string)
    ensures RewriteTokens(ts + [t], v) == RewriteTokens(ts, v) + [RewriteToken(t, v)]
  {
    assert (ts + [t])[..|ts|] == ts;
  }

  /** The attribute loop of updateXmlPort with its portAttrFound flag. */
  method UpdatePortAttrs(attrs: seq<Attr>, v: string) returns (updated: seq<Attr>)
    ensures updated == WithPort(attrs, v)
  {
    updated := [];
    var portAttrFound := false;
    ghost var seen: seq<Attr> := [];
    var i := 0;
    while i < |attrs|
      invariant 0 <= i <= |attrs| && seen == attrs[..i]
      invariant updated == ReplacePorts(seen, v)
      invariant portAttrFound <==> AnyPort(seen)
    {
      ReplacePortsSnoc(seen, attrs[i], v);
      AnyPortSnoc(seen, attrs[i]);
      if attrs[i].name == PortName {
        updated := updated + [Attr(PortName, v)];
        portAttrFound := true;
      } else {
        updated := updated + [attrs[i]];
      }
      TakeOneMore(attrs, i);
      seen := seen + [attrs[i]];
      i := i + 1;
    }
    assert seen == attrs;
    AnyPortIsHasPort(attrs);
    if !portAttrFound {
      updated := updated + [Attr(PortName, v)];
    }
  }

  /**
   * updateXmlPort: the rewritten token stream, or an error and no output at all when the
   * decoder fails on the document.
   */
  method UpdateXmlPort(doc: Decoded, newPort: int) returns (r: Result<seq<Token>, XmlError>)
    ensures r.Err? <==> doc.failed
    ensures r.Ok? ==> r.value == RewriteTokens(doc.tokens, Strconv.Itoa(newPort))
  {
    var newPortStr := Strconv.Itoa(newPort);
    var out: seq<Token> := [];
    var ts := doc.tokens;
    ghost var seen: seq<Token> := [];
    var i := 0;
    while i < |ts|
      invariant 0 <= i <= |ts| && seen == ts[..i]
      invariant out == RewriteTokens(seen, newPortStr)
    {
      var t := ts[i];
      RewriteTokensSnoc(seen, t, newPortStr);
      if t.Start? && t.name == ServerData {
        var updatedAttrs := UpdatePortAttrs(t.attrs, newPortStr);
        out := out + [Start(t.name, updatedAttrs)];
      } else {
        out := out + [t];
      }
      TakeOneMore(ts, i);
      seen := seen + [t];
      i := i + 1;
    }
    if doc.failed {
      return Err(TokenReadError);
    }
    assert seen == ts;
    return Ok(out);
  }

  /** min of config_manager.go. */
  function Min(a: int, b: int): (m: int)
    ensures m <= a && m <= b
    ensures m == a || m == b
  {
    if a < b then a else b
  }

  /** When the element has a port attribute, each one takes the new value where it stood and nothing is added. */
  lemma PortValuesReplaced(attrs: seq<Attr>, v: string)
    requires HasPort(attrs)
    ensures |WithPort(attrs, v)| == |attrs|
    ensures forall i :: 0 <= i < |attrs| && IsPort(attrs[i]) ==> WithPort(attrs, v)[i] == Attr(PortName, v)
    ensures forall i :: 0 <= i < |attrs| && !IsPort(attrs[i]) ==> WithPort(attrs, v)[i] == attrs[i]
  {
    ReplacePortsAt(attrs, v);
  }

  /** When the element has no port attribute, exactly one is appended after the existing attributes. */
  lemma PortAppended(attrs: seq<Attr>, v: string)
    requires !HasPort(attrs)
    ensures WithPort(attrs, v) == attrs + [Attr(PortName, v)]
  {
    ReplacePortsAt(attrs, v);
    assert ReplacePorts(attrs, v) == attrs;
  }

  lemma {:induction false} NonPortOfReplaced(attrs: seq<Attr>, v: string)
    ensures NonPort(ReplacePorts(attrs, v)) == NonPort(attrs)
  {
    if |attrs| > 0 {
      var init := attrs[..|attrs| - 1];
      var r := ReplacePorts(attrs, v);
      assert r[..|r| - 1] == ReplacePorts(init, v);
      NonPortOfReplaced(init, v);
    }
  }

  /** The attributes other than port keep their names, values and relative order. */
  lemma OtherAttrsKept(attrs: seq<Attr>, v: string)
    ensures NonPort(WithPort(attrs, v)) == NonPort(attrs)
  {
    var r := ReplacePorts(attrs, v);
    NonPortOfReplaced(attrs, v);
    if HasPort(attrs) {
      assert WithPort(attrs, v) == r;
    } else {
      assert WithPort(attrs, v) == r + [Attr(PortName, v)];
      NonPortDropsPort(r, v);
    }
  }

  lemma NonPortDropsPort(r: seq<Attr>, v: string)
    ensures NonPort(r + [Attr(PortName, v)]) == NonPort(r)
  {
    assert (r + [Attr(PortName, v)])[..|r|] == r;
  }

  /** The rewritten element carries a port attribute, and every port attribute it has holds the new value. */
  lemma EveryPortIsNew(attrs: seq<Attr>, v: string)
    ensures HasPort(WithPort(attrs, v))
    ensures forall a :: a in WithPort(attrs, v) && IsPort(a) ==> a.value == v
  {
    var w := WithPort(attrs, v);
    ReplacePortsAt(attrs, v);
    if HasPort(attrs) {
      var i :| 0 <= i < |attrs| && IsPort(attrs[i]);
      assert IsPort(w[i]);
    } else {
      assert IsPort(w[|w| - 1]);
    }
  }

  /** Rewriting an element twice with the same port gives the attributes of rewriting it once. */
  lemma WithPortIdempotent(attrs: seq<Attr>, v: string)
    ensures WithPort(WithPort(attrs, v), v) == WithPort(attrs, v)
  {
    var w := WithPort(attrs, v);
    EveryPortIsNew(attrs, v);
    ReplacePortsAt(w, v);
    assert ReplacePorts(w, v) == w;
  }

  /** Every token other than a server_data start element comes out unchanged and in place. */
  lemma OtherTokensKept(ts: seq<Token>, v: string, i: int)
    requires 0 <= i < |ts|
    requires !(ts[i].Start? && ts[i].name == ServerData)
    ensures |RewriteTokens(ts, v)| == |ts| && RewriteTokens(ts, v)[i] == ts[i]
  {
  }

  /** Rewriting a document twice with the same port gives the tokens of rewriting it once. */
  lemma RewriteIdempotent(ts: seq<Token>, v: string)
    ensures RewriteTokens(RewriteTokens(ts, v), v) == RewriteTokens(ts, v)
  {
    var r := RewriteTokens(ts, v);
    forall i | 0 <= i < |ts|
      ensures RewriteToken(r[i], v) == r[i]
    {
      if ts[i].Start? && ts[i].name == ServerData {
        WithPortIdempotent(ts[i].attrs, v);
      }
    }
  }
}
