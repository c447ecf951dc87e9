/** The AI analysis client (services/aiService.ts) after the model call has
    settled: grounding-source extraction, and the null-or-analysis contract
    shared by analyzeProduct and analyzeProductFromImage. The call itself is
    an oracle; only its reply is modelled. */
module AiService {
  import opened Util
  import opened Types

  /** The `web` part of one grounding chunk; both fields may be missing. */
  datatype Web = Web(uri: Option<string>, title: Option<string>)

  datatype Chunk = Chunk(web: Option<Web>)

  /** `response.candidates?.[0]?.groundingMetadata?.groundingChunks`: missing
      somewhere along the optional chain, present but not an array, or an
      array of chunks. */
  datatype Grounding = Missing | NotArray | Chunks(items: seq<Chunk>)

  /** The arguments of analyzeProduct. */
  datatype TextRequest = TextRequest(productName: string, brand: string, ingredientsText: string, skinTypes: seq<string>)

  /** The arguments of analyzeProductFromImage; `data` is None when the
      caller passes `undefined`. */
  datatype ImageRequest = ImageRequest(data: Option<string>, mimeType: string, skinTypes: seq<string>)

  /** How the model call settled: it threw, or it returned a response with
      its `text` (possibly missing), the value JSON.parse makes of that text
      when it is a JSON object (None when parsing throws or yields no object
      to attach `sources` to) and its grounding metadata. The parsed object
      is cast to ProductAnalysis without any validation. */
  datatype ModelReply =
    | CallFailed
    | Reply(text: Option<string>, parsed: Option<ProductAnalysis>, grounding: Grounding)

  /** The source a chunk contributes: only a chunk with `web`, a non-empty
      `uri` and a non-empty `title` contributes one. */
  function SourceOf(c: Chunk): Option<GroundingSource> {
    if c.web.Some? && Truthy(c.web.value.uri) && Truthy(c.web.value.title)
    then Some(GroundingSource(c.web.value.title.value, c.web.value.uri.value))
    else None
  }

  /** Some chunk of `cs` contributes exactly `x`. */
  ghost predicate Contributes(cs: seq<Chunk>, x: GroundingSource) {
    exists i :: 0 <= i < |cs| && SourceOf(cs[i]) == Some(x)
  }

  /** The forEach loop that pushes the source of every well-formed chunk. */
  function Collect(cs: seq<Chunk>): (r: seq<GroundingSource>)
    ensures |r| <= |cs|
    ensures forall x :: x in r ==> x.uri != "" && x.title != ""
    ensures forall x :: x in r <==> Contributes(cs, x)
  {
    if cs == [] then []
    else
      var rest := Collect(cs[1..]);
      assert forall x :: Contributes(cs[1..], x) ==> Contributes(cs, x) by {
        forall x | Contributes(cs[1..], x) ensures Contributes(cs, x) {
          var i :| 0 <= i < |cs[1..]| && SourceOf(cs[1..][i]) == Some(x);
          assert cs[i + 1] == cs[1..][i];
        }
      }
      assert forall x :: Contributes(cs, x) ==> SourceOf(cs[0]) == Some(x) || Contributes(cs[1..], x) by {
        forall x | Contributes(cs, x) ensures SourceOf(cs[0]) == Some(x) || Contributes(cs[1..], x) {
          var i :| 0 <= i < |cs| && SourceOf(cs[i]) == Some(x);
          if i > 0 {
            assert cs[1..][i - 1] == cs[i];
          }
        }
      }
      match SourceOf(cs[0])
      case Some(x) =>
        assert Contributes(cs, x) by { assert SourceOf(cs[0]) == Some(x); }
        [x] + rest
      case None => rest
  }

  /** Collecting is done chunk by chunk, in chunk order. */
  lemma {:induction false} CollectAppend(a: seq<Chunk>, b: seq<Chunk>)
    ensures Collect(a + b) == Collect(a) + Collect(b)
    decreases |a|
  {
    if a == [] {
      assert a + b == b;
    } else {
      assert (a + b)[0] == a[0];
      assert (a + b)[1..] == a[1..] + b;
      CollectAppend(a[1..], b);
    }
  }

  /** Array.prototype.findIndex on uri: the index of the first source with
      `uri`, or -1 when there is none. */
  function FindIndex(a: seq<GroundingSource>, uri: string): (r: int)
    ensures -1 <= r < |a|
    ensures r >= 0 ==> a[r].uri == uri && forall j :: 0 <= j < r ==> a[j].uri != uri
    ensures r == -1 ==> forall j :: 0 <= j < |a| ==> a[j].uri != uri
  {
    if a == [] then -1
    else if a[0].uri == uri then 0
    else
      var k := FindIndex(a[1..], uri);
      assert forall j :: 1 <= j < |a| ==> a[j] == a[1..][j - 1];
      if k == -1 then -1 else k + 1
  }

  /** The filter callback `(v, i, a) => a.findIndex(t => t.uri === v.uri) === i`
      applied to positions `i` and later of `a`. */
  function KeepFirstFrom(a: seq<GroundingSource>, i: nat): seq<GroundingSource>
    requires i <= |a|
    decreases |a| - i
  {
    if i == |a| then []
    else (if FindIndex(a, a[i].uri) == i then [a[i]] else []) + KeepFirstFrom(a, i + 1)
  }

  /** The de-duplication step of extractSources. */
  function DedupByUri(a: seq<GroundingSource>): seq<GroundingSource> {
    KeepFirstFrom(a, 0)
  }

  /** extractSources: the well-formed chunks' sources, de-duplicated by uri.
      A missing or non-array `groundingChunks` yields no sources. */
  function ExtractSources(g: Grounding): seq<GroundingSource> {
    match g
    case Chunks(cs) => DedupByUri(Collect(cs))
    case _ => []
  }

  // ---------------------------------------------------------------------
  // A reference definition of de-duplication, and its agreement with the
  // index-based filter the source uses.

  /** The uris of the sources in `a`. */
  ghost function Uris(a: seq<GroundingSource>): set<string> {
    set k | 0 <= k < |a| :: a[k].uri
  }

  /** No uri occurs twice. */
  ghost predicate DistinctUris(a: seq<GroundingSource>) {
    forall i, j :: 0 <= i < j < |a| ==> a[i].uri != a[j].uri
  }

  /** Reference de-duplication: walk left to right, keeping a source when its
      uri has not been seen yet. */
  ghost function Unseen(a: seq<GroundingSource>, seen: set<string>): seq<GroundingSource>
    decreases |a|
  {
    if a == [] then []
    else if a[0].uri in seen then Unseen(a[1..], seen)
    else [a[0]] + Unseen(a[1..], seen + {a[0].uri})
  }

  lemma UrisSnoc(a: seq<GroundingSource>, i: nat)
    requires i < |a|
    ensures Uris(a[..i + 1]) == Uris(a[..i]) + {a[i].uri}
  {
    var p, q := a[..i + 1], a[..i];
    forall u | u in Uris(p) ensures u in Uris(q) + {a[i].uri} {
      var k :| 0 <= k < |p| && p[k].uri == u;
      if k < i {
        assert q[k] == p[k];
      }
    }
    forall u | u in Uris(q) + {a[i].uri} ensures u in Uris(p) {
      if u == a[i].uri {
        assert p[i].uri == u;
      } else {
        var k :| 0 <= k < |q| && q[k].uri == u;
        assert p[k] == q[k];
      }
    }
  }

  lemma InUris(a: seq<GroundingSource>, i: nat, r: nat)
    requires r < i <= |a|
    ensures a[r].uri in Uris(a[..i])
  {
    assert a[..i][r] == a[r];
  }

  lemma NotInUris(a: seq<GroundingSource>, i: nat, u: string)
    requires i <= |a|
    requires forall j :: 0 <= j < i ==> a[j].uri != u
    ensures u !in Uris(a[..i])
  {
    forall k | 0 <= k < i ensures a[..i][k].uri != u {
      assert a[..i][k] == a[k];
    }
  }

  /** The findIndex filter keeps position `i` exactly when its uri does not
      occur earlier. */
  lemma FindIndexIsFirst(a: seq<GroundingSource>, i: nat)
    requires i < |a|
    ensures FindIndex(a, a[i].uri) == i <==> a[i].uri !in Uris(a[..i])
  {
    var u := a[i].uri;
    var r := FindIndex(a, u);
    if 0 <= r < i {
      InUris(a, i, r);
    } else {
      NotInUris(a, i, u);
    }
  }

  /** The index-based filter computes the reference de-duplication. */
  lemma {:induction false} KeepFirstIsUnseen(a: seq<GroundingSource>, i: nat)
    requires i <= |a|
    ensures KeepFirstFrom(a, i) == Unseen(a[i..], Uris(a[..i]))
    decreases |a| - i
  {
    if i < |a| {
      KeepFirstIsUnseen(a, i + 1);
      FindIndexIsFirst(a, i);
      UrisSnoc(a, i);
      assert a[i..][0] == a[i];
      assert a[i..][1..] == a[i + 1..];
      if a[i].uri in Uris(a[..i]) {
        assert Uris(a[..i + 1]) == Uris(a[..i]);
      }
    }
  }

  lemma DedupIsUnseen(a: seq<GroundingSource>)
    ensures DedupByUri(a) == Unseen(a, {})
  {
    KeepFirstIsUnseen(a, 0);
    assert a[0..] == a;
    assert Uris(a[..0]) == {};
  }

  /** The reference keeps each unseen uri once and never a seen one. */
  lemma {:induction false} UnseenDistinct(a: seq<GroundingSource>, seen: set<string>)
    ensures DistinctUris(Unseen(a, seen))
    ensures forall k :: 0 <= k < |Unseen(a, seen)| ==> Unseen(a, seen)[k].uri !in seen
    decreases |a|
  {
    if a != [] {
      if a[0].uri in seen {
        UnseenDistinct(a[1..], seen);
      } else {
        var rest := Unseen(a[1..], seen + {a[0].uri});
        UnseenDistinct(a[1..], seen + {a[0].uri});
        var r := [a[0]] + rest;
        forall i, j | 0 <= i < j < |r| ensures r[i].uri != r[j].uri {
          assert r[j] == rest[j - 1];
          if i > 0 {
            assert r[i] == rest[i - 1];
          }
        }
        forall k | 0 <= k < |r| ensures r[k].uri !in seen {
          if k > 0 {
            assert r[k] == rest[k - 1];
          }
        }
      }
    }
  }

  /** The reference keeps elements of its input, in input order. */
  lemma {:induction false} UnseenSubseq(a: seq<GroundingSource>, seen: set<string>)
    ensures IsSubseq(Unseen(a, seen), a)
    decreases |a|
  {
    if a != [] {
      if a[0].uri in seen {
        UnseenSubseq(a[1..], seen);
      } else {
        UnseenSubseq(a[1..], seen + {a[0].uri});
      }
    }
  }

  /** The reference loses no uri that has not been seen. */
  lemma {:induction false} UnseenUris(a: seq<GroundingSource>, seen: set<string>)
    ensures Uris(Unseen(a, seen)) == Uris(a) - seen
    decreases |a|
  {
    if a != [] {
      assert Uris(a) == {a[0].uri} + Uris(a[1..]) by {
        forall u | u in Uris(a) ensures u in {a[0].uri} + Uris(a[1..]) {
          var k :| 0 <= k < |a| && a[k].uri == u;
          if k > 0 {
            assert a[1..][k - 1] == a[k];
          }
        }
        forall u | u in {a[0].uri} + Uris(a[1..]) ensures u in Uris(a) {
          if u != a[0].uri {
            var k :| 0 <= k < |a[1..]| && a[1..][k].uri == u;
            assert a[k + 1] == a[1..][k];
          }
        }
      }
      if a[0].uri in seen {
        UnseenUris(a[1..], seen);
      } else {
        var rest := Unseen(a[1..], seen + {a[0].uri});
        UnseenUris(a[1..], seen + {a[0].uri});
        var r := [a[0]] + rest;
        assert Uris(r) == {a[0].uri} + Uris(rest) by {
          forall u | u in Uris(r) ensures u in {a[0].uri} + Uris(rest) {
            var k :| 0 <= k < |r| && r[k].uri == u;
            if k > 0 {
              assert r[k] == rest[k - 1];
            }
          }
          forall u | u in {a[0].uri} + Uris(rest) ensures u in Uris(r) {
            if u == a[0].uri {
              assert r[0].uri == u;
            } else {
              var k :| 0 <= k < |rest| && rest[k].uri == u;
              assert r[k + 1] == rest[k];
            }
          }
        }
      }
    }
  }

  /** The element the reference keeps for a uri is the first element of the
      input with that uri. */
  lemma {:induction false} UnseenKeepsFirst(a: seq<GroundingSource>, seen: set<string>)
    ensures forall x :: x in Unseen(a, seen) ==> 0 <= FindIndex(a, x.uri) && a[FindIndex(a, x.uri)] == x
    decreases |a|
  {
    if a != [] {
      var seen' := if a[0].uri in seen then seen else seen + {a[0].uri};
      UnseenKeepsFirst(a[1..], seen');
      UnseenDistinct(a[1..], seen');
      forall x | x in Unseen(a, seen) ensures 0 <= FindIndex(a, x.uri) && a[FindIndex(a, x.uri)] == x {
        if x in Unseen(a[1..], seen') {
          var k :| 0 <= k < |Unseen(a[1..], seen')| && Unseen(a[1..], seen')[k] == x;
          assert x.uri != a[0].uri;
          assert a[1..][FindIndex(a[1..], x.uri)] == x;
        }
      }
    }
  }

  /** On a list whose uris are distinct and unseen, the reference is the identity. */
  lemma {:induction false} UnseenOfDistinct(a: seq<GroundingSource>, seen: set<string>)
    requires DistinctUris(a)
    requires forall k :: 0 <= k < |a| ==> a[k].uri !in seen
    ensures Unseen(a, seen) == a
    decreases |a|
  {
    if a != [] {
      var seen' := seen + {a[0].uri};
      forall k | 0 <= k < |a[1..]| ensures a[1..][k].uri !in seen' {
        assert a[1..][k] == a[k + 1];
      }
      assert DistinctUris(a[1..]) by {
        forall i, j | 0 <= i < j < |a[1..]| ensures a[1..][i].uri != a[1..][j].uri {
          assert a[1..][i] == a[i + 1] && a[1..][j] == a[j + 1];
        }
      }
      UnseenOfDistinct(a[1..], seen');
    }
  }

  // ---------------------------------------------------------------------
  // Properties of extractSources.

  /** No uri occurs twice among the extracted sources. */
  lemma ExtractDistinct(g: Grounding)
    ensures DistinctUris(ExtractSources(g))
  {
    if g.Chunks? {
      DedupIsUnseen(Collect(g.items));
      UnseenDistinct(Collect(g.items), {});
    }
  }

  /** Only well-formed chunks contribute, and there is nothing to extract
      unless `groundingChunks` is an array. */
  lemma ExtractOnlyWellFormed(g: Grounding)
    ensures forall x :: x in ExtractSources(g) ==> g.Chunks? && Contributes(g.items, x)
    ensures forall x :: x in ExtractSources(g) ==> x.uri != "" && x.title != ""
  {
    if g.Chunks? {
      var all := Collect(g.items);
      DedupIsUnseen(all);
      UnseenSubseq(all, {});
      SubseqMembers(Unseen(all, {}), all);
    }
  }

  /** The extracted list keeps well-formed sources in chunk order, and the
      source kept for each uri is the first well-formed one with that uri. */
  lemma ExtractKeepsFirstInOrder(g: Grounding)
    requires g.Chunks?
    ensures IsSubseq(ExtractSources(g), Collect(g.items))
    ensures forall x :: x in ExtractSources(g) ==>
      0 <= FindIndex(Collect(g.items), x.uri) && Collect(g.items)[FindIndex(Collect(g.items), x.uri)] == x
  {
    var all := Collect(g.items);
    DedupIsUnseen(all);
    UnseenSubseq(all, {});
    UnseenKeepsFirst(all, {});
  }

  /** The uri of every well-formed chunk appears among the extracted sources. */
  lemma ExtractComplete(g: Grounding)
    requires g.Chunks?
    ensures forall i :: 0 <= i < |g.items| && SourceOf(g.items[i]).Some? ==>
      SourceOf(g.items[i]).value.uri in Uris(ExtractSources(g))
  {
    var all := Collect(g.items);
    DedupIsUnseen(all);
    UnseenUris(all, {});
    forall i | 0 <= i < |g.items| && SourceOf(g.items[i]).Some?
      ensures SourceOf(g.items[i]).value.uri in Uris(ExtractSources(g))
    {
      var x := SourceOf(g.items[i]).value;
      assert Contributes(g.items, x);
      var k :| 0 <= k < |all| && all[k] == x;
      assert x.uri in Uris(all);
    }
  }

  /** Re-wraps sources as well-formed grounding chunks. */
  function AsChunks(a: seq<GroundingSource>): seq<Chunk> {
    seq(|a|, k requires 0 <= k < |a| => Chunk(Some(Web(Some(a[k].uri), Some(a[k].title)))))
  }

  lemma {:induction false} CollectAsChunks(a: seq<GroundingSource>)
    requires forall k :: 0 <= k < |a| ==> a[k].uri != "" && a[k].title != ""
    ensures Collect(AsChunks(a)) == a
    decreases |a|
  {
    if a != [] {
      assert AsChunks(a)[1..] == AsChunks(a[1..]);
      CollectAsChunks(a[1..]);
    }
  }

  /** Extracting again from chunks built out of extracted sources changes nothing. */
  lemma ExtractIdempotent(g: Grounding)
    ensures ExtractSources(Chunks(AsChunks(ExtractSources(g)))) == ExtractSources(g)
  {
    var r := ExtractSources(g);
    ExtractOnlyWellFormed(g);
    ExtractDistinct(g);
    CollectAsChunks(r);
    DedupIsUnseen(r);
    UnseenOfDistinct(r, {});
  }

  // ---------------------------------------------------------------------
  // The reply handling shared by analyzeProduct and analyzeProductFromImage.

  /** null when the call throws, when the reply has no text or empty text,
      or when the text does not parse to an object; otherwise the parsed
      object, taken as it is, with `sources` overwritten by the extracted list. */
  function AnalyzeReply(reply: ModelReply): (r: Option<ProductAnalysis>)
    ensures r.Some? <==> reply.Reply? && Truthy(reply.text) && reply.parsed.Some?
    ensures r.Some? ==> r.value.sources == Some(ExtractSources(reply.grounding))
    ensures r.Some? ==> r.value.(sources := reply.parsed.value.sources) == reply.parsed.value
  {
    match reply
    case CallFailed => None
    case Reply(text, parsed, grounding) =>
      if !Truthy(text) then None
      else
        match parsed
        case None => None
        case Some(a) => Some(a.(sources := Some(ExtractSources(grounding))))
  }

  /** A successful analysis always carries a source list, and its uris are distinct. */
  lemma AnalysisSourcesDistinct(reply: ModelReply)
    requires AnalyzeReply(reply).Some?
    ensures AnalyzeReply(reply).value.sources.Some?
    ensures DistinctUris(AnalyzeReply(reply).value.sources.value)
  {
    ExtractDistinct(reply.grounding);
  }
}
