/** The frames exchanged over one relay tunnel, in both directions. */
module Protocol {
  import opened Sequences
  import opened Base64

  type Id = string
  type Headers = map<string, seq<string>>

  /** A message on a public or local websocket. */
  datatype WsMessage = WsMessage(messageType: int, payload: Bytes)

  datatype Frame =
    | Registered(subdomain: string, url: string)
    | Ping
    | Pong
    | Request(id: Id, verb: string, path: string, headers: Headers, body: string)
    | Response(id: Id, status: int, headers: Headers, body: string)
    | SSEStart(id: Id, status: int, headers: Headers)
    | SSEChunk(id: Id, data: string)
    | SSEEnd(id: Id)
    | WSOpen(id: Id, path: string, headers: Headers)
    | WSOpened(id: Id, success: bool, error: string)
    | WSData(id: Id, messageType: int, data: string)
    | WSClose(id: Id)

  /** An HTTP request as either end sees it outside the tunnel. */
  datatype HttpCall = HttpCall(verb: string, path: string, headers: Headers, body: Bytes)

  function ToRequest(id: Id, call: HttpCall): Frame {
    Request(id, call.verb, call.path, call.headers, Encode(call.body, Std))
  }

  /** The call a request frame asks for; a body that does not decode is dropped. */
  function CallOf(f: Frame): HttpCall
    requires f.Request?
  {
    var d := Decode(f.body, Std);
    HttpCall(f.verb, f.path, f.headers, if f.body != "" && d.ok then d.data else [])
  }

  lemma CallRoundTrip(id: Id, call: HttpCall)
    ensures CallOf(ToRequest(id, call)) == call
  {
    RoundTrip(call.body, Std);
    EncodeEmpty(call.body, Std);
  }

  predicate HasId(f: Frame, id: Id) {
    !f.Registered? && !f.Ping? && !f.Pong? && f.id == id
  }

  predicate OccursAt(s: string, part: string, i: nat) {
    i + |part| <= |s| && s[i..i + |part|] == part
  }

  predicate Contains(s: string, part: string) {
    exists i: nat | i <= |s| :: OccursAt(s, part, i)
  }

  /** The first `Accept` value asks for a stream; both ends of the tunnel apply this one test. */
  predicate AcceptsStream(headers: Headers) {
    "Accept" in headers && headers["Accept"] != [] && Contains(headers["Accept"][0], "text/event-stream")
  }

  type ResponseFrame = f: Frame | f.Response? witness Response("", 0, map[], "")
  type StartFrame = f: Frame | f.SSEStart? witness SSEStart("", 0, map[])
  type ChunkFrame = f: Frame | f.SSEChunk? witness SSEChunk("", "")
  type OpenedFrame = f: Frame | f.WSOpened? witness WSOpened("", false, "")
  type DataFrame = f: Frame | f.WSData? witness WSData("", 0, "")

  /** What is left of a wire when the frames of every other request are deleted. */
  function Only(fs: seq<Frame>, id: Id): (r: seq<Frame>)
    ensures forall f :: f in r <==> f in fs && HasId(f, id)
  {
    if fs == [] then []
    else
      var last := fs[|fs| - 1];
      var init := Only(fs[..|fs| - 1], id);
      if HasId(last, id) then init + [last] else init
  }

  lemma OnlySnoc(fs: seq<Frame>, f: Frame, id: Id)
    ensures Only(fs + [f], id) == if HasId(f, id) then Only(fs, id) + [f] else Only(fs, id)
  {
    assert (fs + [f])[..|fs|] == fs;
  }

  /** Removing the head of the wire removes the head of the view that shows it, and of no other. */
  lemma {:induction false} OnlyTail(fs: seq<Frame>, id: Id)
    requires fs != []
    ensures Only(fs, id) == if HasId(fs[0], id) then [fs[0]] + Only(fs[1..], id) else Only(fs[1..], id)
    decreases |fs|
  {
    hide HasId;
    var n := |fs| - 1;
    if n == 0 {
      assert fs[..0] == [] && fs[1..] == [];
    } else {
      var init, x, head := fs[..n], fs[n], fs[0];
      OnlyTail(init, id);
      assert fs[1..][..n - 1] == init[1..] && fs[1..][n - 1] == x;
      assert Only(fs, id) == if HasId(x, id) then Only(init, id) + [x] else Only(init, id);
      assert Only(fs[1..], id) == if HasId(x, id) then Only(init[1..], id) + [x] else Only(init[1..], id);
      assert [head] + Only(init[1..], id) + [x] == [head] + (Only(init[1..], id) + [x]);
      hide Only;
    }
  }

  // ---- Chunks of a stream ----

  function ChunksOf(fs: seq<Frame>): seq<ChunkFrame> {
    if fs == [] then []
    else
      var last := fs[|fs| - 1];
      var init := ChunksOf(fs[..|fs| - 1]);
      if last.SSEChunk? then init + [last] else init
  }

  lemma ChunksSnoc(fs: seq<Frame>, f: Frame)
    ensures ChunksOf(fs + [f]) == if f.SSEChunk? then ChunksOf(fs) + [f] else ChunksOf(fs)
  {
    assert (fs + [f])[..|fs|] == fs;
  }

  lemma {:induction false} ChunksPrefix(fs: seq<Frame>, gs: seq<Frame>)
    requires fs <= gs
    ensures ChunksOf(fs) <= ChunksOf(gs)
    decreases |gs|
  {
    if |fs| == |gs| {
      assert fs == gs;
    } else {
      ChunksPrefix(fs, gs[..|gs| - 1]);
    }
  }

  /** The byte blocks that chunk frames carry; a chunk that does not decode carries none. */
  function Blocks(cs: seq<ChunkFrame>): seq<Bytes> {
    if cs == [] then []
    else
      var d := Decode(cs[|cs| - 1].data, Std);
      var init := Blocks(cs[..|cs| - 1]);
      if d.ok then init + [d.data] else init
  }

  lemma BlocksSnoc(cs: seq<ChunkFrame>, c: ChunkFrame)
    ensures Blocks(cs + [c]) == if Decode(c.data, Std).ok then Blocks(cs) + [Decode(c.data, Std).data] else Blocks(cs)
  {
    assert (cs + [c])[..|cs|] == cs;
  }

  /** The chunk frames a client sends for a list of byte blocks. */
  function ChunkFrames(id: Id, blocks: seq<Bytes>): seq<ChunkFrame> {
    if blocks == [] then []
    else ChunkFrames(id, blocks[..|blocks| - 1]) + [SSEChunk(id, Encode(blocks[|blocks| - 1], Std))]
  }

  lemma ChunkFramesSnoc(id: Id, blocks: seq<Bytes>, b: Bytes)
    ensures ChunkFrames(id, blocks + [b]) == ChunkFrames(id, blocks) + [SSEChunk(id, Encode(b, Std))]
  {
    assert (blocks + [b])[..|blocks|] == blocks;
  }

  lemma {:induction false} BlocksOfChunkFrames(id: Id, blocks: seq<Bytes>)
    ensures Blocks(ChunkFrames(id, blocks)) == blocks
    decreases |blocks|
  {
    if blocks != [] {
      var k := |blocks| - 1;
      BlocksOfChunkFrames(id, blocks[..k]);
      BlocksSnoc(ChunkFrames(id, blocks[..k]), SSEChunk(id, Encode(blocks[k], Std)));
      RoundTrip(blocks[k], Std);
      InitLast(blocks);
    }
  }

  /** Every chunk frame sent for a block decodes, so no block disappears in decoding. */
  lemma {:induction false} BlocksSubseq(cs: seq<ChunkFrame>, id: Id, blocks: seq<Bytes>)
    requires Subseq(cs, ChunkFrames(id, blocks))
    ensures Subseq(Blocks(cs), blocks) && |Blocks(cs)| == |cs|
    decreases |blocks|
  {
    if cs != [] {
      var k, n := |blocks| - 1, |cs| - 1;
      var sent := ChunkFrames(id, blocks);
      assert sent[..k] == ChunkFrames(id, blocks[..k]) && |sent| == k + 1 by {
        ChunkFramesLength(id, blocks[..k]);
      }
      InitLast(blocks);
      if cs[n] == sent[k] && Subseq(cs[..n], sent[..k]) {
        BlocksSubseq(cs[..n], id, blocks[..k]);
        RoundTrip(blocks[k], Std);
        SubseqSnoc(Blocks(cs[..n]), blocks[..k], blocks[k]);
      } else {
        BlocksSubseq(cs, id, blocks[..k]);
        SubseqSkip(Blocks(cs), blocks[..k], blocks[k]);
      }
    }
  }

  lemma {:induction false} ChunkFramesLength(id: Id, blocks: seq<Bytes>)
    ensures |ChunkFrames(id, blocks)| == |blocks|
    decreases |blocks|
  {
    if blocks != [] {
      ChunkFramesLength(id, blocks[..|blocks| - 1]);
    }
  }

  // ---- Websocket messages ----

  /** The workspace has reported that its local socket is open. */
  ghost predicate HasOpened(fs: seq<Frame>) {
    exists f :: f in fs && f.WSOpened? && f.success
  }

  function DataOf(fs: seq<Frame>): seq<DataFrame> {
    if fs == [] then []
    else
      var last := fs[|fs| - 1];
      var init := DataOf(fs[..|fs| - 1]);
      if last.WSData? then init + [last] else init
  }

  lemma DataSnoc(fs: seq<Frame>, f: Frame)
    ensures DataOf(fs + [f]) == if f.WSData? then DataOf(fs) + [f] else DataOf(fs)
  {
    assert (fs + [f])[..|fs|] == fs;
  }

  lemma {:induction false} DataPrefix(fs: seq<Frame>, gs: seq<Frame>)
    requires fs <= gs
    ensures DataOf(fs) <= DataOf(gs)
    decreases |gs|
  {
    if |fs| == |gs| {
      assert fs == gs;
    } else {
      DataPrefix(fs, gs[..|gs| - 1]);
    }
  }

  function ToFrame(id: Id, m: WsMessage): DataFrame {
    WSData(id, m.messageType, Encode(m.payload, Std))
  }

  function ToMessage(f: DataFrame): WsMessage {
    WsMessage(f.messageType, Decode(f.data, Std).data)
  }

  function DataFrames(id: Id, ms: seq<WsMessage>): seq<Frame> {
    if ms == [] then [] else DataFrames(id, ms[..|ms| - 1]) + [ToFrame(id, ms[|ms| - 1])]
  }

  function Messages(fs: seq<DataFrame>): seq<WsMessage> {
    if fs == [] then [] else Messages(fs[..|fs| - 1]) + [ToMessage(fs[|fs| - 1])]
  }

  lemma DataFramesSnoc(id: Id, ms: seq<WsMessage>, m: WsMessage)
    ensures DataFrames(id, ms + [m]) == DataFrames(id, ms) + [ToFrame(id, m)]
  {
    assert (ms + [m])[..|ms|] == ms;
  }

  lemma MessagesSnoc(fs: seq<DataFrame>, f: DataFrame)
    ensures Messages(fs + [f]) == Messages(fs) + [ToMessage(f)]
  {
    assert (fs + [f])[..|fs|] == fs;
  }

  lemma {:induction false} MessagesPrefix(fs: seq<DataFrame>, gs: seq<DataFrame>)
    requires fs <= gs
    ensures Messages(fs) <= Messages(gs)
    decreases |gs|
  {
    if |fs| == |gs| {
      assert fs == gs;
    } else {
      MessagesPrefix(fs, gs[..|gs| - 1]);
    }
  }

  lemma {:induction false} MessagesSubseq(fs: seq<DataFrame>, gs: seq<DataFrame>)
    requires Subseq(fs, gs)
    ensures Subseq(Messages(fs), Messages(gs))
    decreases |gs|
  {
    if fs != [] {
      var n, m := |fs| - 1, |gs| - 1;
      if fs[n] == gs[m] && Subseq(fs[..n], gs[..m]) {
        MessagesSubseq(fs[..n], gs[..m]);
        SubseqSnoc(Messages(fs[..n]), Messages(gs[..m]), ToMessage(gs[m]));
      } else {
        MessagesSubseq(fs, gs[..m]);
        SubseqSkip(Messages(fs), Messages(gs[..m]), ToMessage(gs[m]));
      }
    }
  }

  lemma FrameRoundTrip(id: Id, m: WsMessage)
    ensures ToMessage(ToFrame(id, m)) == m && Decode(ToFrame(id, m).data, Std).ok
  {
    RoundTrip(m.payload, Std);
  }

  /** The frames written for a websocket: the opening frame, one frame per message, perhaps a close. */
  function WsScript(first: Frame, id: Id, ms: seq<WsMessage>, hungUp: bool): seq<Frame> {
    [first] + DataFrames(id, ms) + (if hungUp then [WSClose(id)] else [])
  }

  lemma ScriptGrows(first: Frame, id: Id, ms: seq<WsMessage>, m: WsMessage)
    ensures WsScript(first, id, ms + [m], false) == WsScript(first, id, ms, false) + [ToFrame(id, m)]
  {
    DataFramesSnoc(id, ms, m);
  }

  /** Only a script with messages contains data frames. */
  lemma DataNeedsMessages(first: Frame, id: Id, ms: seq<WsMessage>, hungUp: bool, f: Frame)
    requires !first.WSData? && f.WSData? && f in WsScript(first, id, ms, hungUp)
    ensures ms != []
  {
  }

  /** Only the first frame of a script opens anything. */
  lemma {:induction false} ScriptOpensOnce(first: Frame, id: Id, ms: seq<WsMessage>, hungUp: bool, i: nat)
    requires 0 < i < |WsScript(first, id, ms, hungUp)|
    ensures WsScript(first, id, ms, hungUp)[i].WSData? || WsScript(first, id, ms, hungUp)[i].WSClose?
    decreases |ms|
  {
    var frames := DataFrames(id, ms);
    if i < |frames| {
      ScriptOpensOnce(first, id, ms[..|ms| - 1], false, i);
      assert WsScript(first, id, ms[..|ms| - 1], false)[i] == WsScript(first, id, ms, hungUp)[i];
    } else if i == |frames| {
      assert WsScript(first, id, ms, hungUp)[i] == frames[i - 1] == ToFrame(id, ms[|ms| - 1]);
    } else {
      assert hungUp && WsScript(first, id, ms, hungUp)[i] == [WSClose(id)][0];
    }
  }

  /** A script carries exactly the messages it was written for, all of them decodable. */
  ghost predicate Carries(fs: seq<Frame>, ms: seq<WsMessage>) {
    Messages(DataOf(fs)) == ms && forall f :: f in DataOf(fs) ==> Decode(f.data, Std).ok
  }

  lemma CarriesSnoc(fs: seq<Frame>, id: Id, ms: seq<WsMessage>, m: WsMessage)
    requires Carries(fs, ms)
    ensures Carries(fs + [ToFrame(id, m)], ms + [m])
  {
    DataSnoc(fs, ToFrame(id, m));
    MessagesSnoc(DataOf(fs), ToFrame(id, m));
    FrameRoundTrip(id, m);
  }

  lemma {:induction false} OpenScriptCarries(first: Frame, id: Id, ms: seq<WsMessage>)
    requires !first.WSData?
    ensures Carries([first] + DataFrames(id, ms), ms)
    decreases |ms|
  {
    if ms == [] {
      DataSnoc([], first);
      assert [first] + DataFrames(id, ms) == [] + [first];
    } else {
      var k := |ms| - 1;
      OpenScriptCarries(first, id, ms[..k]);
      var script := [first] + DataFrames(id, ms[..k]);
      CarriesSnoc(script, id, ms[..k], ms[k]);
      assert [first] + DataFrames(id, ms) == script + [ToFrame(id, ms[k])];
      InitLast(ms);
    }
  }

  lemma ScriptCarries(first: Frame, id: Id, ms: seq<WsMessage>, hungUp: bool)
    requires !first.WSData?
    ensures Carries(WsScript(first, id, ms, hungUp), ms)
  {
    OpenScriptCarries(first, id, ms);
    var script := [first] + DataFrames(id, ms);
    DataSnoc(script, WSClose(id));
    assert WsScript(first, id, ms, hungUp) == if hungUp then script + [WSClose(id)] else script;
  }
}
