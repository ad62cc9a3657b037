/**
 * The laptop service's handlers over the laptop and rating stores: create a
 * laptop, stream the search results, receive an image in chunks, and answer
 * a stream of ratings one response per request.
 *
 * A request stream is the sequence of messages the client sent followed by
 * how it ended (end of stream, or a receive failure); a context is polled at
 * numbered checkpoints; the UUID library, the image store and the outcome of
 * each send are parameters.
 */
module LaptopServer {
  import opened Prelude
  import opened Rpc
  import opened LaptopStore
  import opened RatingStore

  /** `maxImageSize`: 1 << 20 bytes. */
  const MaxImageSize: nat := 0x10_0000

  /** What follows the last message of a request stream. */
  datatype StreamEnd = EndOfStream | RecvFailed

  /** The text of a generated UUID (`uuid.NewRandom().String()`), always 36 characters. */
  type UuidText = s: string | |s| == 36 witness "00000000-0000-0000-0000-000000000000"

  // ---------------------------------------------------------------------------
  // UploadImage: messages and reference behaviour

  datatype ImageInfo = ImageInfo(laptopId: string, imageType: string)

  /** An upload message carries either the image's metadata or a chunk of its bytes. */
  datatype UploadRequest = Info(info: ImageInfo) | ChunkData(chunk: seq<bv8>)

  /** The arguments of one `imageStore.Save` call. */
  datatype ImageSave = ImageSave(laptopId: string, imageType: string, data: seq<bv8>)

  datatype UploadResponse = UploadResponse(id: string, size: u32)

  /** The handler's result, and the `imageStore.Save` call it made, if any. */
  datatype UploadOutcome = UploadOutcome(result: Result<UploadResponse, Status>, saved: Option<ImageSave>)

  /** `GetInfo()`: the metadata of a message, empty fields when it carries a chunk. */
  function InfoOf(m: UploadRequest): (info: ImageInfo)
    ensures m.ChunkData? ==> info == ImageInfo("", "")
    ensures m.Info? ==> info == m.info
  {
    match m
    case Info(info) => info
    case ChunkData(_) => ImageInfo("", "")
  }

  /** `GetChunkData()`: the bytes of a message, none when it carries metadata. */
  function ChunkOf(m: UploadRequest): (chunk: seq<bv8>)
    ensures m.Info? ==> chunk == []
    ensures m.ChunkData? ==> chunk == m.chunk
  {
    match m
    case Info(_) => []
    case ChunkData(chunk) => chunk
  }

  /** The bytes of messages `i` onwards, concatenated. */
  function Chunks(msgs: seq<UploadRequest>, i: nat): seq<bv8>
    requires i <= |msgs|
    decreases |msgs| - i
  {
    if i == |msgs| then [] else ChunkOf(msgs[i]) + Chunks(msgs, i + 1)
  }

  /**
   * The chunk loop from message `i` on, with `buffer` received so far: poll
   * the context (checkpoint i - 1), receive, add the chunk's size to the
   * total and fail once it exceeds the maximum, otherwise append the chunk.
   */
  function ReceiveChunks(msgs: seq<UploadRequest>, end: StreamEnd, ctx: Context, i: nat, buffer: seq<bv8>): (r: Result<seq<bv8>, Status>)
    requires 1 <= i <= |msgs| && |buffer| <= MaxImageSize
    ensures r.Success? ==> |r.value| <= MaxImageSize
    decreases |msgs| - i
  {
    match ContextError(ctx(i - 1))
    case Some(status) => Failure(status)
    case None =>
      if i == |msgs| then
        if end == EndOfStream then Success(buffer) else Failure(Status(Unknown, "cannot receive chunk data"))
      else
        var data := buffer + ChunkOf(msgs[i]);
        if |data| > MaxImageSize then Failure(Status(InvalidArgument, "image is too large"))
        else ReceiveChunks(msgs, end, ctx, i + 1, data)
  }

  /**
   * `UploadImage` as a function of the store and of the stream: the first
   * message names the laptop, the rest carry chunks, and the image is saved
   * at end of stream.
   */
  function UploadSpec(data: map<string, Laptop>, copyFails: Laptop -> bool, msgs: seq<UploadRequest>, end: StreamEnd,
                      ctx: Context, saveImage: ImageSave -> Option<string>, sendFails: bool): UploadOutcome
  {
    if msgs == [] then UploadOutcome(Failure(Status(Unknown, "cannot receive image info")), None)
    else
      var info := InfoOf(msgs[0]);
      match Lookup(data, copyFails, info.laptopId)
      case Failure(_) => UploadOutcome(Failure(Status(Internal, "cannot find laptop")), None)
      case Success(None) => UploadOutcome(Failure(Status(InvalidArgument, "laptop id doesn't exist")), None)
      case Success(Some(_)) =>
        match ReceiveChunks(msgs, end, ctx, 1, [])
        case Failure(status) => UploadOutcome(Failure(status), None)
        case Success(image) =>
          var request := ImageSave(info.laptopId, info.imageType, image);
          match saveImage(request)
          case None => UploadOutcome(Failure(Status(Internal, "cannot save image to the store")), Some(request))
          case Some(id) =>
            if sendFails then UploadOutcome(Failure(Status(Unknown, "cannot send response")), Some(request))
            else UploadOutcome(Success(UploadResponse(id, |image|)), Some(request))
  }

  /**
   * With the context live, the chunk loop either receives every remaining
   * byte (the running total never passes the maximum) or fails with
   * `InvalidArgument` (it does at some message); exactly the maximum is accepted.
   */
  lemma {:induction false} ReceiveChunksAll(msgs: seq<UploadRequest>, ctx: Context, i: nat, buffer: seq<bv8>)
    requires 1 <= i <= |msgs| && |buffer| <= MaxImageSize
    requires forall k | i - 1 <= k < |msgs| :: ctx(k) == Active
    decreases |msgs| - i
    ensures ReceiveChunks(msgs, EndOfStream, ctx, i, buffer)
      == if |buffer + Chunks(msgs, i)| <= MaxImageSize then Success(buffer + Chunks(msgs, i))
         else Failure(Status(InvalidArgument, "image is too large"))
  {
    assert ctx(i - 1) == Active;
    if i < |msgs| {
      var data := buffer + ChunkOf(msgs[i]);
      assert buffer + Chunks(msgs, i) == data + Chunks(msgs, i + 1);
      if |data| <= MaxImageSize {
        ReceiveChunksAll(msgs, ctx, i + 1, data);
      }
    } else {
      assert buffer + Chunks(msgs, i) == buffer;
    }
  }

  /**
   * A done context ends the chunk loop at the first done checkpoint j: with
   * that context's error when the chunks fit, and otherwise with that error
   * or `InvalidArgument` when the size check fails first.
   */
  lemma {:induction false} ReceiveChunksStopsAtDoneContext(msgs: seq<UploadRequest>, end: StreamEnd, ctx: Context, i: nat,
                                                           buffer: seq<bv8>, j: nat)
    requires 1 <= i <= |msgs| && |buffer| <= MaxImageSize
    requires i - 1 <= j < |msgs| && ctx(j) != Active
    requires forall k | i - 1 <= k < j :: ctx(k) == Active
    decreases |msgs| - i
    ensures var r := ReceiveChunks(msgs, end, ctx, i, buffer);
      && (r == Failure(ContextError(ctx(j)).value) || r == Failure(Status(InvalidArgument, "image is too large")))
      && (|buffer + Chunks(msgs, i)| <= MaxImageSize ==> r == Failure(ContextError(ctx(j)).value))
  {
    if j > i - 1 {
      assert ctx(i - 1) == Active;
      var data := buffer + ChunkOf(msgs[i]);
      assert buffer + Chunks(msgs, i) == data + Chunks(msgs, i + 1);
      if |data| <= MaxImageSize {
        ReceiveChunksStopsAtDoneContext(msgs, end, ctx, i + 1, data, j);
      }
    }
  }

  /**
   * An upload of a stored laptop whose context is done at checkpoint j, and
   * live before it, saves nothing; when its chunks fit, it fails with that
   * context's `Canceled` or `DeadlineExceeded`.
   */
  lemma UploadStopsAtDoneContext(data: map<string, Laptop>, copyFails: Laptop -> bool, msgs: seq<UploadRequest>, end: StreamEnd,
                                 ctx: Context, saveImage: ImageSave -> Option<string>, sendFails: bool, j: nat)
    requires msgs != [] && InfoOf(msgs[0]).laptopId in data && !copyFails(data[InfoOf(msgs[0]).laptopId])
    requires j < |msgs| && ctx(j) != Active
    requires forall k | 0 <= k < j :: ctx(k) == Active
    ensures var o := UploadSpec(data, copyFails, msgs, end, ctx, saveImage, sendFails);
      && o.saved == None
      && (o.result == Failure(ContextError(ctx(j)).value) || o.result == Failure(Status(InvalidArgument, "image is too large")))
      && (|Chunks(msgs, 1)| <= MaxImageSize ==> o.result == Failure(ContextError(ctx(j)).value))
  {
    ReceiveChunksStopsAtDoneContext(msgs, end, ctx, 1, [], j);
    assert [] + Chunks(msgs, 1) == Chunks(msgs, 1);
  }

  /** An upload naming a laptop that is not stored fails with `InvalidArgument`, saves nothing and reads no chunk. */
  lemma UploadUnknownLaptop(data: map<string, Laptop>, copyFails: Laptop -> bool, msgs: seq<UploadRequest>, end: StreamEnd,
                            ctx: Context, saveImage: ImageSave -> Option<string>, sendFails: bool,
                            rest: seq<UploadRequest>, end': StreamEnd, ctx': Context)
    requires msgs != [] && InfoOf(msgs[0]).laptopId !in data
    ensures UploadSpec(data, copyFails, msgs, end, ctx, saveImage, sendFails)
      == UploadOutcome(Failure(Status(InvalidArgument, "laptop id doesn't exist")), None)
    ensures UploadSpec(data, copyFails, [msgs[0]] + rest, end', ctx', saveImage, sendFails)
      == UploadSpec(data, copyFails, msgs, end, ctx, saveImage, sendFails)
  {
    assert ([msgs[0]] + rest)[0] == msgs[0];
  }

  /** An image is saved only when it fits: whatever the stream, the saved bytes are at most the maximum. */
  lemma UploadSavesOnlyWhatFits(data: map<string, Laptop>, copyFails: Laptop -> bool, msgs: seq<UploadRequest>, end: StreamEnd,
                                ctx: Context, saveImage: ImageSave -> Option<string>, sendFails: bool)
    ensures var o := UploadSpec(data, copyFails, msgs, end, ctx, saveImage, sendFails);
      o.saved.Some? ==> |o.saved.value.data| <= MaxImageSize
    ensures var o := UploadSpec(data, copyFails, msgs, end, ctx, saveImage, sendFails);
      o.result.Success? ==> o.saved.Some? && o.result.value.size == |o.saved.value.data|
  {
  }

  /**
   * A complete upload with the context live: when the chunks total at most
   * the maximum, their concatenation is saved under the named laptop and
   * type and the reply carries the store's id and the total size; when they
   * total more, the call fails with `InvalidArgument` and nothing is saved.
   */
  lemma UploadWholeImage(data: map<string, Laptop>, copyFails: Laptop -> bool, msgs: seq<UploadRequest>,
                         ctx: Context, saveImage: ImageSave -> Option<string>)
    requires msgs != [] && InfoOf(msgs[0]).laptopId in data && !copyFails(data[InfoOf(msgs[0]).laptopId])
    requires forall k | 0 <= k < |msgs| :: ctx(k) == Active
    ensures var o := UploadSpec(data, copyFails, msgs, EndOfStream, ctx, saveImage, false);
      var image := Chunks(msgs, 1);
      var request := ImageSave(InfoOf(msgs[0]).laptopId, InfoOf(msgs[0]).imageType, image);
      && (|image| <= MaxImageSize ==>
            (o.saved == Some(request)
             && (saveImage(request).Some? ==> o.result == Success(UploadResponse(saveImage(request).value, |image|)))))
      && (|image| > MaxImageSize ==> o == UploadOutcome(Failure(Status(InvalidArgument, "image is too large")), None))
  {
    ReceiveChunksAll(msgs, ctx, 1, []);
    assert [] + Chunks(msgs, 1) == Chunks(msgs, 1);
  }

  // ---------------------------------------------------------------------------
  // RateLaptop: messages and reference behaviour

  datatype RateRequest = RateRequest(laptopId: string, score: real)

  datatype RateResponse = RateResponse(laptopId: string, ratedCount: u32, averageScore: Average)

  /** The handler's error, if any, the responses it sent, and the rating history afterwards. */
  datatype RateOutcome = RateOutcome(err: Option<Status>, responses: seq<RateResponse>, history: map<string, seq<real>>)

  /** The scores recorded for `id` in `history`. */
  function Prior(history: map<string, seq<real>>, id: string): seq<real>
  {
    if id in history then history[id] else []
  }

  /** The response for a laptop whose scores so far are `scores`: their count and their average. */
  function ResponseFor(id: string, scores: seq<real>): (res: RateResponse)
    requires scores != []
    ensures res.laptopId == id && Accumulate(scores) == Some(Tally(res.ratedCount, Accumulate(scores).value.sum))
    ensures res.averageScore == AverageOf(Accumulate(scores).value)
  {
    var t := Accumulate(scores).value;
    RateResponse(id, t.count, AverageOf(t))
  }

  /** The scores that the first `n` requests give to `id`, in order. */
  function ScoresFor(reqs: seq<RateRequest>, n: nat, id: string): seq<real>
    requires n <= |reqs|
  {
    if n == 0 then []
    else ScoresFor(reqs, n - 1, id) + (if reqs[n - 1].laptopId == id then [reqs[n - 1].score] else [])
  }

  /**
   * The rating loop from request `i` on, with the rating history `history`
   * and `responses` sent so far: poll the context (checkpoint i), receive,
   * check the laptop exists, add the score, reply with the new count and average.
   */
  function RateFrom(data: map<string, Laptop>, copyFails: Laptop -> bool, reqs: seq<RateRequest>, end: StreamEnd,
                    ctx: Context, sendFails: nat -> bool, i: nat,
                    history: map<string, seq<real>>, responses: seq<RateResponse>): (o: RateOutcome)
    requires i <= |reqs|
    ensures |o.responses| <= |responses| + (|reqs| - i)
    decreases |reqs| - i
  {
    match ContextError(ctx(i))
    case Some(status) => RateOutcome(Some(status), responses, history)
    case None =>
      if i == |reqs| then
        RateOutcome(if end == EndOfStream then None else Some(Status(Unknown, "cannot receive stream request")), responses, history)
      else
        var req := reqs[i];
        match Lookup(data, copyFails, req.laptopId)
        case Failure(_) => RateOutcome(Some(Status(Internal, "cannot find laptop")), responses, history)
        case Success(None) => RateOutcome(Some(Status(NotFound, "laptop id is not found")), responses, history)
        case Success(Some(_)) =>
          var scores := Prior(history, req.laptopId) + [req.score];
          var next := history[req.laptopId := scores];
          if sendFails(i) then RateOutcome(Some(Status(Unknown, "cannot send stream response")), responses, next)
          else RateFrom(data, copyFails, reqs, end, ctx, sendFails, i + 1, next, responses + [ResponseFor(req.laptopId, scores)])
  }

  /** Request `i` is received, its laptop found, its score added and its response sent: the loop goes on. */
  predicate Proceeds(data: map<string, Laptop>, copyFails: Laptop -> bool, reqs: seq<RateRequest>,
                     ctx: Context, sendFails: nat -> bool, i: nat)
  {
    && i < |reqs| && ctx(i) == Active
    && reqs[i].laptopId in data && !copyFails(data[reqs[i].laptopId])
    && !sendFails(i)
  }

  /** When request `i` proceeds, the run is the run from `i + 1` with its score recorded and its response sent. */
  lemma RateStep(data: map<string, Laptop>, copyFails: Laptop -> bool, reqs: seq<RateRequest>,
                 end: StreamEnd, ctx: Context, sendFails: nat -> bool, i: nat,
                 history: map<string, seq<real>>, responses: seq<RateResponse>)
    requires Proceeds(data, copyFails, reqs, ctx, sendFails, i)
    ensures var id := reqs[i].laptopId;
      var scores := Prior(history, id) + [reqs[i].score];
      RateFrom(data, copyFails, reqs, end, ctx, sendFails, i, history, responses)
        == RateFrom(data, copyFails, reqs, end, ctx, sendFails, i + 1, history[id := scores], responses + [ResponseFor(id, scores)])
  {
  }

  /** Otherwise the run ends there, with no further response. */
  lemma RateHalts(data: map<string, Laptop>, copyFails: Laptop -> bool, reqs: seq<RateRequest>,
                  end: StreamEnd, ctx: Context, sendFails: nat -> bool, i: nat,
                  history: map<string, seq<real>>, responses: seq<RateResponse>)
    requires i <= |reqs| && !Proceeds(data, copyFails, reqs, ctx, sendFails, i)
    ensures var o := RateFrom(data, copyFails, reqs, end, ctx, sendFails, i, history, responses);
      && o.responses == responses
      && (o.err.None? <==> i == |reqs| && ctx(i) == Active && end == EndOfStream)
      && (o.err.Some? && o.err.value.code == NotFound <==> i < |reqs| && ctx(i) == Active && reqs[i].laptopId !in data)
      && (ctx(i) != Active ==> o.err == ContextError(ctx(i)))
  {
  }

  /**
   * One response per request, in order: the run keeps the responses already
   * sent and answers request j with response j, for that request's laptop,
   * the context having been live at checkpoint j.
   */
  lemma {:induction false} RateAnswersInOrder(data: map<string, Laptop>, copyFails: Laptop -> bool, reqs: seq<RateRequest>,
                                              end: StreamEnd, ctx: Context, sendFails: nat -> bool, i: nat,
                                              history: map<string, seq<real>>, responses: seq<RateResponse>)
    requires i <= |reqs| && |responses| == i
    ensures var o := RateFrom(data, copyFails, reqs, end, ctx, sendFails, i, history, responses);
      && i <= |o.responses| <= |reqs| && o.responses[..i] == responses
      && (forall j | i <= j < |o.responses| :: o.responses[j].laptopId == reqs[j].laptopId && ctx(j) == Active)
    decreases |reqs| - i
  {
    if Proceeds(data, copyFails, reqs, ctx, sendFails, i) {
      var id := reqs[i].laptopId;
      var scores := Prior(history, id) + [reqs[i].score];
      var next := responses + [ResponseFor(id, scores)];
      RateStep(data, copyFails, reqs, end, ctx, sendFails, i, history, responses);
      RateAnswersInOrder(data, copyFails, reqs, end, ctx, sendFails, i + 1, history[id := scores], next);
      var o := RateFrom(data, copyFails, reqs, end, ctx, sendFails, i + 1, history[id := scores], next);
      assert o.responses[..i] == o.responses[..i + 1][..i];
    } else {
      RateHalts(data, copyFails, reqs, end, ctx, sendFails, i, history, responses);
    }
  }

  /**
   * How the run ends: without error only at end of stream after answering
   * every request with the context live; with `NotFound` only for an unknown
   * laptop, named by the request after the last one answered.
   */
  lemma {:induction false} RateEnds(data: map<string, Laptop>, copyFails: Laptop -> bool, reqs: seq<RateRequest>,
                                    end: StreamEnd, ctx: Context, sendFails: nat -> bool, i: nat,
                                    history: map<string, seq<real>>, responses: seq<RateResponse>)
    requires i <= |reqs| && |responses| == i
    ensures var o := RateFrom(data, copyFails, reqs, end, ctx, sendFails, i, history, responses);
      && (o.err.None? <==> |o.responses| == |reqs| && end == EndOfStream && ctx(|reqs|) == Active)
      && (o.err.Some? && o.err.value.code == NotFound <==>
            |o.responses| < |reqs| && ctx(|o.responses|) == Active && reqs[|o.responses|].laptopId !in data)
      && (ctx(|o.responses|) != Active ==> o.err == ContextError(ctx(|o.responses|)))
    decreases |reqs| - i
  {
    if Proceeds(data, copyFails, reqs, ctx, sendFails, i) {
      var id := reqs[i].laptopId;
      var scores := Prior(history, id) + [reqs[i].score];
      RateStep(data, copyFails, reqs, end, ctx, sendFails, i, history, responses);
      RateEnds(data, copyFails, reqs, end, ctx, sendFails, i + 1, history[id := scores], responses + [ResponseFor(id, scores)]);
    } else {
      RateHalts(data, copyFails, reqs, end, ctx, sendFails, i, history, responses);
    }
  }

  /** The rating history after the first `i` requests have each added their score. */
  function HistoryAfter(history0: map<string, seq<real>>, reqs: seq<RateRequest>, i: nat): map<string, seq<real>>
    requires i <= |reqs|
  {
    if i == 0 then history0
    else
      var history := HistoryAfter(history0, reqs, i - 1);
      var id := reqs[i - 1].laptopId;
      history[id := Prior(history, id) + [reqs[i - 1].score]]
  }

  /** After the first `i` requests, a laptop's history is its earlier scores followed by those the requests gave it. */
  lemma {:induction false} HistoryAfterScores(history0: map<string, seq<real>>, reqs: seq<RateRequest>, i: nat, id: string)
    requires i <= |reqs|
    ensures Prior(HistoryAfter(history0, reqs, i), id) == Prior(history0, id) + ScoresFor(reqs, i, id)
  {
    if i > 0 {
      var history := HistoryAfter(history0, reqs, i - 1);
      var req := reqs[i - 1];
      HistoryAfterScores(history0, reqs, i - 1, id);
      if req.laptopId == id {
        var before, later := Prior(history0, id), ScoresFor(reqs, i - 1, id);
        assert before + (later + [req.score]) == (before + later) + [req.score];
      } else {
        assert ScoresFor(reqs, i, id) == ScoresFor(reqs, i - 1, id) + [];
      }
    }
  }

  /** The response request `j` should get when `history0` was recorded before the call. */
  function Expected(history0: map<string, seq<real>>, reqs: seq<RateRequest>, j: nat): RateResponse
    requires j < |reqs|
  {
    var id := reqs[j].laptopId;
    ResponseFor(id, Prior(HistoryAfter(history0, reqs, j), id) + [reqs[j].score])
  }

  /**
   * Every response reports the scores given so far to its laptop: those
   * recorded before the call, then those of the requests up to and
   * including its own.
   */
  lemma {:induction false} RateCountsEveryScore(data: map<string, Laptop>, copyFails: Laptop -> bool, reqs: seq<RateRequest>,
                                                end: StreamEnd, ctx: Context, sendFails: nat -> bool, i: nat,
                                                history0: map<string, seq<real>>, responses: seq<RateResponse>)
    requires i <= |reqs| && |responses| == i
    requires forall j | 0 <= j < i :: responses[j] == Expected(history0, reqs, j)
    ensures var o := RateFrom(data, copyFails, reqs, end, ctx, sendFails, i, HistoryAfter(history0, reqs, i), responses);
      forall j | 0 <= j < |o.responses| :: o.responses[j] == Expected(history0, reqs, j)
    decreases |reqs| - i
  {
    var history := HistoryAfter(history0, reqs, i);
    if Proceeds(data, copyFails, reqs, ctx, sendFails, i) {
      var sent := responses + [Expected(history0, reqs, i)];
      RateStep(data, copyFails, reqs, end, ctx, sendFails, i, history, responses);
      RateCountsEveryScore(data, copyFails, reqs, end, ctx, sendFails, i + 1, history0, sent);
    } else {
      RateHalts(data, copyFails, reqs, end, ctx, sendFails, i, history, responses);
    }
  }

  /** On a store with no ratings yet, the expected response counts and averages the requests' scores for its laptop. */
  lemma ExpectedFromEmpty(reqs: seq<RateRequest>, j: nat)
    requires j < |reqs|
    ensures var scores := ScoresFor(reqs, j + 1, reqs[j].laptopId);
      && scores != []
      && Expected(map[], reqs, j).ratedCount == |scores| % TWO_32
      && (|scores| < TWO_32 ==> Expected(map[], reqs, j).averageScore == Mean(Sum(scores) / |scores| as real))
  {
    var id := reqs[j].laptopId;
    var scores := ScoresFor(reqs, j + 1, id);
    HistoryAfterScores(map[], reqs, j, id);
    assert [] + ScoresFor(reqs, j, id) == ScoresFor(reqs, j, id);
    assert Prior(HistoryAfter(map[], reqs, j), id) + [reqs[j].score] == scores;
    var res := Expected(map[], reqs, j);
    assert res == ResponseFor(id, scores);
    AccumulateCounts(scores);
    if |scores| < TWO_32 {
      AverageDefinedBelowWrap(scores);
    }
  }

  /**
   * On a store with no ratings yet, the response to request j reports how
   * many of the requests up to j rated its laptop (modulo 2^32) and, below
   * 2^32, the mean of their scores.
   */
  lemma RateFromEmptyStore(data: map<string, Laptop>, copyFails: Laptop -> bool, reqs: seq<RateRequest>,
                           end: StreamEnd, ctx: Context, sendFails: nat -> bool, j: nat)
    requires j < |RateFrom(data, copyFails, reqs, end, ctx, sendFails, 0, map[], []).responses|
    ensures j < |reqs|
    ensures var res := RateFrom(data, copyFails, reqs, end, ctx, sendFails, 0, map[], []).responses[j];
      var scores := ScoresFor(reqs, j + 1, reqs[j].laptopId);
      && scores != []
      && res.ratedCount == |scores| % TWO_32
      && (|scores| < TWO_32 ==> res.averageScore == Mean(Sum(scores) / |scores| as real))
  {
    RateCountsEveryScore(data, copyFails, reqs, end, ctx, sendFails, 0, map[], []);
    ExpectedFromEmpty(reqs, j);
  }

  /**
   * The client's rating test: three scores 8, 7.5 and 10 for one stored
   * laptop get three responses, counts 1, 2, 3 and averages 8, 7.75, 8.5,
   * and the call ends without error.
   */
  lemma RateClientTest(data: map<string, Laptop>, copyFails: Laptop -> bool, id: string, ctx: Context, sendFails: nat -> bool)
    requires id in data && !copyFails(data[id])
    requires forall k | 0 <= k <= 3 :: ctx(k) == Active
    requires forall k | 0 <= k < 3 :: !sendFails(k)
    ensures RateFrom(data, copyFails, [RateRequest(id, 8.0), RateRequest(id, 7.5), RateRequest(id, 10.0)], EndOfStream, ctx, sendFails, 0, map[], [])
      == RateOutcome(None,
                     [RateResponse(id, 1, Mean(8.0)), RateResponse(id, 2, Mean(7.75)), RateResponse(id, 3, Mean(8.5))],
                     map[id := [8.0, 7.5, 10.0]])
  {
    var reqs := [RateRequest(id, 8.0), RateRequest(id, 7.5), RateRequest(id, 10.0)];
    RatingTestScores();
    var r1, r2, r3 := RateResponse(id, 1, Mean(8.0)), RateResponse(id, 2, Mean(7.75)), RateResponse(id, 3, Mean(8.5));
    assert ResponseFor(id, [8.0]) == r1;
    assert ResponseFor(id, [8.0, 7.5]) == r2;
    assert ResponseFor(id, [8.0, 7.5, 10.0]) == r3;
    var h1, h2, h3 := map[id := [8.0]], map[id := [8.0, 7.5]], map[id := [8.0, 7.5, 10.0]];
    assert Prior(map[], id) + [8.0] == [8.0];
    assert Prior(h1, id) + [7.5] == [8.0, 7.5];
    assert Prior(h2, id) + [10.0] == [8.0, 7.5, 10.0];
    assert map[][id := [8.0]] == h1 && h1[id := [8.0, 7.5]] == h2 && h2[id := [8.0, 7.5, 10.0]] == h3;
    assert [] + [r1] == [r1] && [r1] + [r2] == [r1, r2] && [r1, r2] + [r3] == [r1, r2, r3];
    RateStep(data, copyFails, reqs, EndOfStream, ctx, sendFails, 0, map[], []);
    RateStep(data, copyFails, reqs, EndOfStream, ctx, sendFails, 1, h1, [r1]);
    RateStep(data, copyFails, reqs, EndOfStream, ctx, sendFails, 2, h2, [r1, r2]);
    RateHalts(data, copyFails, reqs, EndOfStream, ctx, sendFails, 3, h3, [r1, r2, r3]);
  }

  // ---------------------------------------------------------------------------
  // SearchLaptop: the callback

  /**
   * Whether the callback's k-th call returns an error: it fails when the
   * stream's context is done when polled, or when sending the record fails.
   */
  function SendCallback(sendCtx: Context, sendFails: nat -> bool): (found: nat -> bool)
    ensures forall k :: found(k) <==> sendCtx(k) != Active || sendFails(k)
  {
    (k: nat) => sendCtx(k) != Active || sendFails(k)
  }

  // ---------------------------------------------------------------------------
  // The server

  class LaptopServer {
    const laptopStore: InMemoryLaptopStore
    const ratingStore: InMemoryRatingStore

    ghost predicate Valid()
      reads this, laptopStore, ratingStore, ratingStore.Repr
    {
      laptopStore.Valid() && ratingStore.Valid()
    }

    constructor (laptopStore: InMemoryLaptopStore, ratingStore: InMemoryRatingStore)
      ensures this.laptopStore == laptopStore && this.ratingStore == ratingStore
    {
      this.laptopStore := laptopStore;
      this.ratingStore := ratingStore;
    }

    /**
     * `CreateLaptop`: takes the supplied id if it is a UUID, or generates one
     * into the request when it is empty; gives up if the context is done;
     * then saves and reports the id, mapping a duplicate to `AlreadyExists`
     * and any other store error to `Internal`. `laptop` is the request's
     * record and `request` that record afterwards; `newId` is what the UUID
     * generator returns (none when it fails).
     */
    method CreateLaptop(ctx: CtxState, isUuid: string -> bool, newId: Option<UuidText>, laptop: Laptop)
      returns (r: Result<string, Status>, request: Laptop)
      requires Valid()
      modifies laptopStore
      ensures Valid()
      ensures |laptop.id| > 0 && !isUuid(laptop.id) ==>
        r == Failure(Status(InvalidArgument, "laptop ID is not a valid UUID")) && request == laptop && laptopStore.data == old(laptopStore.data)
      ensures |laptop.id| == 0 && newId.None? ==>
        r == Failure(Status(Internal, "cannot generate a new laptop ID")) && request == laptop && laptopStore.data == old(laptopStore.data)
      ensures (|laptop.id| > 0 && isUuid(laptop.id)) || (|laptop.id| == 0 && newId.Some?) ==>
        && request == laptop.(id := if |laptop.id| > 0 then laptop.id else newId.value)
        && (ctx == CtxCanceled ==> r == Failure(Status(Canceled, "request is Canceled")) && laptopStore.data == old(laptopStore.data))
        && (ctx == CtxDeadlineExceeded ==> r == Failure(Status(DeadlineExceeded, "deadline is exceeded")) && laptopStore.data == old(laptopStore.data))
        && (ctx == Active && request.id in old(laptopStore.data) ==>
              r == Failure(Status(AlreadyExists, "cannot save laptop to the store")) && laptopStore.data == old(laptopStore.data))
        && (ctx == Active && request.id !in old(laptopStore.data) && laptopStore.copyFails(request) ==>
              r == Failure(Status(Internal, "cannot save laptop to the store")) && laptopStore.data == old(laptopStore.data))
        && (ctx == Active && request.id !in old(laptopStore.data) && !laptopStore.copyFails(request) ==>
              r == Success(request.id) && laptopStore.data == old(laptopStore.data)[request.id := request])
      ensures r.Success? ==> |r.value| > 0 && (|laptop.id| > 0 ==> r.value == laptop.id)
    {
      request := laptop;
      if |request.id| > 0 {
        if !isUuid(request.id) {
          return Failure(Status(InvalidArgument, "laptop ID is not a valid UUID")), request;
        }
      } else {
        if newId.None? {
          return Failure(Status(Internal, "cannot generate a new laptop ID")), request;
        }
        request := request.(id := newId.value);
      }

      if ctx == CtxCanceled {
        return Failure(Status(Canceled, "request is Canceled")), request;
      }
      if ctx == CtxDeadlineExceeded {
        return Failure(Status(DeadlineExceeded, "deadline is exceeded")), request;
      }

      var err := laptopStore.Save(request);
      var code := Internal;
      if err == Some(ErrAlreadyExists) {
        code := AlreadyExists;
      }
      if err.Some? {
        return Failure(Status(code, "cannot save laptop to the store")), request;
      }
      r := Success(request.id);
    }

    /**
     * `SearchLaptop`: runs the store's search with a callback that checks the
     * stream's context and sends each record; any error from the search,
     * the context's included, is reported as `Internal`. `sent` are the
     * records the client received: those the callback got, except the last
     * when the callback failed for it. `order` is the enumeration order.
     */
    method SearchLaptop(filter: Filter, ctx: Context, sendCtx: Context, sendFails: nat -> bool)
      returns (status: Option<Status>, sent: seq<Laptop>, ghost order: seq<string>)
      requires Valid()
      ensures NoDup(order) && KeysIn(order, laptopStore.data)
      ensures var w := Walk(laptopStore.data, laptopStore.copyFails, SearchCall(filter, ctx, SendCallback(sendCtx, sendFails)), order, 0, []);
        && (status.None? <==> w.err.None?)
        && (status.Some? ==> status.value == Status(Internal, "unexpected error"))
        && sent == if w.err == Some(CallbackFailed) && w.calls != [] then w.calls[..|w.calls| - 1] else w.calls
      ensures status.None? ==> forall id | id in laptopStore.data :: id in order
    {
      var err, calls;
      err, calls, order := laptopStore.Search(ctx, filter, SendCallback(sendCtx, sendFails));
      ghost var q := SearchCall(filter, ctx, SendCallback(sendCtx, sendFails));
      WalkCallbackError(laptopStore.data, laptopStore.copyFails, q, order, 0, []);
      sent := calls;
      if err == Some(CallbackFailed) {
        sent := calls[..|calls| - 1];
      }
      if err.Some? {
        status := Some(Status(Internal, "unexpected error"));
        return;
      }
      status := None;
    }

    /**
     * `UploadImage`: receives the image's metadata, checks the laptop
     * exists, receives chunks until end of stream while the running size
     * stays within `MaxImageSize`, saves the image and replies with the
     * image id and size. `saveImage` is the image store; `saved` is the call
     * made to it, if any.
     */
    method UploadImage(msgs: seq<UploadRequest>, end: StreamEnd, ctx: Context,
                       saveImage: ImageSave -> Option<string>, sendFails: bool)
      returns (result: Result<UploadResponse, Status>, saved: Option<ImageSave>)
      requires Valid()
      ensures UploadOutcome(result, saved) == UploadSpec(laptopStore.data, laptopStore.copyFails, msgs, end, ctx, saveImage, sendFails)
    {
      saved := None;
      if |msgs| == 0 {
        return Failure(Status(Unknown, "cannot receive image info")), saved;
      }
      var info := InfoOf(msgs[0]);
      var laptop := laptopStore.Find(info.laptopId);
      if laptop.Failure? {
        return Failure(Status(Internal, "cannot find laptop")), saved;
      }
      if laptop.value.None? {
        return Failure(Status(InvalidArgument, "laptop id doesn't exist")), saved;
      }

      var imageData: seq<bv8> := [];
      var imageSize := 0;
      var i := 1;
      while true
        invariant 1 <= i <= |msgs|
        invariant imageSize == |imageData| <= MaxImageSize
        invariant ReceiveChunks(msgs, end, ctx, 1, []) == ReceiveChunks(msgs, end, ctx, i, imageData)
        decreases |msgs| - i
      {
        var err := ContextError(ctx(i - 1));
        if err.Some? {
          return Failure(err.value), saved;
        }
        if i == |msgs| {
          if end == EndOfStream {
            break;
          }
          return Failure(Status(Unknown, "cannot receive chunk data")), saved;
        }
        var chunk := ChunkOf(msgs[i]);
        imageSize := imageSize + |chunk|;
        if imageSize > MaxImageSize {
          return Failure(Status(InvalidArgument, "image is too large")), saved;
        }
        imageData := imageData + chunk;
        i := i + 1;
      }

      var request := ImageSave(info.laptopId, info.imageType, imageData);
      saved := Some(request);
      var imageId := saveImage(request);
      if imageId.None? {
        return Failure(Status(Internal, "cannot save image to the store")), saved;
      }
      if sendFails {
        return Failure(Status(Unknown, "cannot send response")), saved;
      }
      result := Success(UploadResponse(imageId.value, imageSize));
    }

    /**
     * `RateLaptop`: for each request, checks the context, checks the laptop
     * exists, adds the score to the rating store and replies with the
     * laptop's new count and average; ends without error at end of stream.
     * `responses` are the replies sent.
     */
    method RateLaptop(reqs: seq<RateRequest>, end: StreamEnd, ctx: Context, sendFails: nat -> bool)
      returns (err: Option<Status>, responses: seq<RateResponse>)
      requires Valid()
      modifies ratingStore, ratingStore.Repr
      ensures Valid()
      ensures RateOutcome(err, responses, ratingStore.history)
        == RateFrom(laptopStore.data, laptopStore.copyFails, reqs, end, ctx, sendFails, 0, old(ratingStore.history), [])
    {
      ghost var spec := RateFrom(laptopStore.data, laptopStore.copyFails, reqs, end, ctx, sendFails, 0, ratingStore.history, []);
      responses := [];
      var i := 0;
      while true
        invariant i <= |reqs| && Valid()
        invariant fresh(ratingStore.Repr - old(ratingStore.Repr))
        invariant laptopStore.data == old(laptopStore.data)
        invariant spec == RateFrom(laptopStore.data, laptopStore.copyFails, reqs, end, ctx, sendFails, i, ratingStore.history, responses)
        decreases |reqs| - i
      {
        err := ContextError(ctx(i));
        if err.Some? {
          return;
        }
        if i == |reqs| {
          if end == EndOfStream {
            break;
          }
          return Some(Status(Unknown, "cannot receive stream request")), responses;
        }
        var req := reqs[i];
        var found := laptopStore.Find(req.laptopId);
        if found.Failure? {
          return Some(Status(Internal, "cannot find laptop")), responses;
        }
        if found.value.None? {
          return Some(Status(NotFound, "laptop id is not found")), responses;
        }
        var rating := ratingStore.Add(req.laptopId, req.score);
        var res := RateResponse(req.laptopId, rating.count, AverageOf(rating.Value()));
        if sendFails(i) {
          return Some(Status(Unknown, "cannot send stream response")), responses;
        }
        responses := responses + [res];
        i := i + 1;
      }
      err := None;
    }
  }
}
