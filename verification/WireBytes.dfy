/** The rewriter on the bytes of a request: every stage is a splice of UTF-8 bytes. */
module WireBytes {
  import opened Prelude
  import opened Json
  import opened Splice
  import opened JsonEdits
  import opened EditLists
  import opened Ccr
  import opened LiveZone
  import opened Tools
  import opened Injections
  import opened Rewriting
  import opened StageFacts
  import opened Rewriter
  import JsonParser
  import Values
  import Utf8

  // ----- splicing bytes -----

  /** The ranges in byte positions. */
  function ByteRanges(text: string, rs: seq<Replacement<char>>): seq<Replacement<u8>>
    requires InOrder(rs, 0, |text|)
  {
    InOrderFits(rs, 0, |text|);
    Encoded(text, rs, Utf8.CharBytes)
  }

  /** `after` is what the bytes of `text` become when the ranges are replaced in them. */
  predicate BytesSpliced(text: string, rs: seq<Replacement<char>>, after: seq<u8>) {
    && InOrder(rs, 0, |text|)
    && InOrder(ByteRanges(text, rs), 0, |Utf8.Encode(text)|)
    && after == Spliced(Utf8.Encode(text), ByteRanges(text, rs), 0)
  }

  lemma SplicedOnBytes(text: string, rs: seq<Replacement<char>>)
    requires InOrder(rs, 0, |text|)
    ensures BytesSpliced(text, rs, Utf8.Encode(Spliced(text, rs, 0)))
  {
    SplicedEncoded(text, rs, 0, Utf8.CharBytes);
    Utf8.EncodeNone();
    assert text[..0] == "";
  }

  lemma EditsOnBytes(d: Doc, es: seq<Edit>)
    requires Planned(d.root, es)
    ensures BytesSpliced(RenderDoc(d), Moves(d.root, es, |d.pre|),
                         Utf8.Encode(RenderDoc(d.(root := Edited(d.root, es)))))
  {
    hide BytesSpliced;
    SpliceBody(d, es);
    SplicedOnBytes(RenderDoc(d), Moves(d.root, es, |d.pre|));
  }

  /** The range of the cache key, if one is due. */
  function KeyRanges(shape: Shape, d: Doc, ctx: Context, prim: Primitives): seq<Replacement<char>>
    requires WfDoc(d)
  {
    var e := KeyEdit(d.root, shape, prim);
    if Keyed(shape, ctx) && e.Some? then [KeyMove(d, e.value)] else []
  }

  lemma NothingSpliced(text: string)
    ensures BytesSpliced(text, [], Utf8.Encode(text))
  {
    hide BytesSpliced;
    SplicedOnBytes(text, []);
    assert Spliced(text, [], 0) == text;
  }

  lemma KeyOnBytes(shape: Shape, d: Doc, ctx: Context, prim: Primitives)
    requires WfDoc(d)
    ensures BytesSpliced(RenderDoc(d), KeyRanges(shape, d, ctx, prim),
                         Utf8.Encode(if Keyed(shape, ctx) then KeyedBody(d, shape, prim) else RenderDoc(d)))
  {
    hide BytesSpliced, RenderDoc;
    if Keyed(shape, ctx) && KeyEdit(d.root, shape, prim).Some? {
      KeySplice(d, shape, prim);
      SplicedOnBytes(RenderDoc(d), KeyRanges(shape, d, ctx, prim));
    } else {
      NothingSpliced(RenderDoc(d));
    }
  }

  // ----- the four stages -----

  /** The edits of the first three stages. */
  function NormalEdits(shape: Shape, v: Json, ctx: Context, prim: Primitives): seq<Edit> {
    if Adorned(ctx) then MetadataEdits(shape, v, prim) else []
  }

  function ToolEditsOf(shape: Shape, v: Json, prim: Primitives, s: Stages): seq<Edit> {
    RetrieveEdits(shape, s.slotted, Receivers(shape, s.picks, HasMarker(Values.Sem(v, prim.number))), prim.wording)
  }

  lemma StagesPlanned(shape: Shape, v: Json, ctx: Context, prim: Primitives, st: StoreState, s: Stages)
    requires s == Rewrite(shape, v, ctx, prim, st)
    ensures Planned(v, NormalEdits(shape, v, ctx, prim)) && s.normal == Edited(v, NormalEdits(shape, v, ctx, prim))
    ensures Planned(s.normal, SlotEdits(s.picks)) && s.slotted == Edited(s.normal, SlotEdits(s.picks))
    ensures Planned(s.slotted, ToolEditsOf(shape, v, prim, s))
            && s.tooled == Edited(s.slotted, ToolEditsOf(shape, v, prim, s))
  {
    hide Planned, MetadataEdits, Edited, HasMarker, SlotEdits, RetrieveEdits;
    MetadataPlanned(shape, v, prim);
    EditedNothing(v);
    SlotsPlanned(shape, s.normal, ctx, prim.hash, st);
    RetrievePlanned(shape, s.slotted, Receivers(shape, s.picks, HasMarker(Values.Sem(v, prim.number))), prim.wording);
  }

  /**
   * The bytes of a rewritten request come from the bytes of the request by four splices, one a
   * stage, at the byte positions of the planned ranges; all other bytes are copied.
   */
  lemma OutputBytes(shape: Shape, d: Doc, ctx: Context, prim: Primitives, st: StoreState, s: Stages)
    requires WfDoc(d) && Values.GoodNumbers(prim.number) && s == Rewrite(shape, d.root, ctx, prim, st)
    ensures var normal, slotted, tooled := d.(root := s.normal), d.(root := s.slotted), d.(root := s.tooled);
            && Planned(d.root, NormalEdits(shape, d.root, ctx, prim)) && Planned(s.normal, SlotEdits(s.picks))
            && Planned(s.slotted, ToolEditsOf(shape, d.root, prim, s)) && WfDoc(tooled)
            && BytesSpliced(RenderDoc(d), Moves(d.root, NormalEdits(shape, d.root, ctx, prim), |d.pre|),
                            Utf8.Encode(RenderDoc(normal)))
            && BytesSpliced(RenderDoc(normal), Moves(s.normal, SlotEdits(s.picks), |d.pre|),
                            Utf8.Encode(RenderDoc(slotted)))
            && BytesSpliced(RenderDoc(slotted), Moves(s.slotted, ToolEditsOf(shape, d.root, prim, s), |d.pre|),
                            Utf8.Encode(RenderDoc(tooled)))
            && BytesSpliced(RenderDoc(tooled), KeyRanges(shape, tooled, ctx, prim),
                            Utf8.Encode(NewBody(shape, d, ctx, prim, st)))
  {
    hide BytesSpliced, RenderDoc, Rewrite, Planned, NormalEdits, ToolEditsOf, SlotEdits, Edited, Moves, KeyedBody,
      KeyRanges;
    StagesPlanned(shape, d.root, ctx, prim, st, s);
    StagesWf(shape, d.root, ctx, prim, st);
    EditsOnBytes(d, NormalEdits(shape, d.root, ctx, prim));
    EditsOnBytes(d.(root := s.normal), SlotEdits(s.picks));
    EditsOnBytes(d.(root := s.slotted), ToolEditsOf(shape, d.root, prim, s));
    KeyOnBytes(shape, d.(root := s.tooled), ctx, prim);
  }

  // ----- the rewriter on bytes -----

  /** A rewritten request as it goes on the wire. */
  datatype Reply = Reply(body: seq<u8>, compressed: bool, hashes: seq<string>)

  /** Bytes that are no UTF-8 pass as they are. */
  function RewrittenBytes(body: seq<u8>, shape: Shape, ctx: Context, prim: Primitives, st: StoreState)
    : (Reply, StoreState)
  {
    var text := Utf8.Decode(body);
    if text.None? then (Reply(body, false, []), st)
    else
      var (r, next) := Rewritten(text.value, shape, ctx, prim, st);
      (Reply(Utf8.Encode(r.body), r.compressed, r.hashes), next)
  }

  method CompressRequestBytes(body: seq<u8>, shape: Shape, ctx: Context, prim: Primitives, store: CcrStore)
    returns (r: Reply)
    requires Values.GoodNumbers(prim.number)
    modifies store
    ensures (r, store.State()) == RewrittenBytes(body, shape, ctx, prim, old(store.State()))
  {
    var text := Utf8.Decode(body);
    if text.None? { return Reply(body, false, []); }
    var outcome := CompressJsonRequest(text.value, shape, ctx, prim, store);
    r := Reply(Utf8.Encode(outcome.body), outcome.compressed, outcome.hashes);
  }

  /** A body that is no UTF-8, no JSON or asks for several choices leaves byte for byte as it came. */
  lemma Bypassed(body: seq<u8>, shape: Shape, ctx: Context, prim: Primitives, st: StoreState)
    requires Utf8.IsUtf8(body) ==>
               var d := JsonParser.Parse(Utf8.Decode(body).value);
               d.None? || MultiChoice(shape, d.value.root)
    ensures RewrittenBytes(body, shape, ctx, prim, st) == (Reply(body, false, []), st)
  {
    hide JsonParser.Parse, MultiChoice;
    Utf8.Read(body);
  }
}
