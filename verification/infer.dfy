/** The model descriptor and the image pipeline of infer.go: the gate `New`
    applies to a descriptor, and the decisions `fromImage` makes around the
    TensorFlow calls it delegates to. The TensorFlow calls themselves are
    opaque and are supplied as the fields of a `Runtime`. */
module Infer {
  import opened Wrappers
  import TensorImage

  type Bytes = seq<TensorImage.byte>

  /** Opaque handles to objects that live inside the TensorFlow runtime. */
  datatype Graph = Graph(handle: nat)
  datatype TensorHandle = TensorHandle(handle: nat)
  datatype Session = Session(handle: nat)

  /** `Input` and `Output`: a node name and its dimensions. The source's
      `interface{}` dimensions are modelled as a list of integers; an input's
      dimensions are the (height, width) the image is resized to. */
  datatype Layer = Layer(key: string, dimensions: seq<int>)

  /** `Model`: a graph, its labels, and two layers either of which may be nil. */
  datatype Model = Model(graph: Graph, labels: seq<string>, input: Option<Layer>, output: Option<Layer>)

  /** `ImageOptions`. */
  datatype ImageOptions = ImageOptions(isGray: bool)

  /** `ErrValidInputOutputRequired`, the "invalid image" error, and any error a
      foreign call raised, passed through unchanged. */
  datatype Error = ValidInputOutputRequired | InvalidImage | Raised(message: string)

  /** Both layers are present and both keys are non-empty. */
  predicate Valid(m: Model) {
    && m.input.Some? && m.output.Some?
    && m.input.value.key != "" && m.output.value.key != ""
  }

  /** `New`: admits exactly the valid descriptors, returning the descriptor
      itself unchanged, and rejects every other one with
      `ErrValidInputOutputRequired`. */
  function New(m: Model): (r: Result<Model, Error>)
    ensures r.Ok? <==> Valid(m)
    ensures r.Ok? ==> r.value == m
    ensures r.Err? ==> r.error == ValidInputOutputRequired
  {
    if m.input.None? || m.output.None? then
      Err(ValidInputOutputRequired)
    else if m.input.value.key == "" || m.output.value.key == "" then
      Err(ValidInputOutputRequired)
    else
      Ok(m)
  }

  /** A descriptor `New` admitted is admitted again, unchanged. */
  lemma NewIdempotent(m: Model)
    requires New(m).Ok?
    ensures New(New(m).value) == New(m)
  {
  }

  /** Graph and labels play no part in the decision: two descriptors with the
      same layers are both admitted or both rejected. */
  lemma NewIgnoresGraphAndLabels(m: Model, g: Graph, labels: seq<string>)
    ensures New(m).Ok? == New(Model(g, labels, m.input, m.output)).Ok?
  {
  }

  /** The number of channels the image is decoded with. */
  function Channels(opts: ImageOptions): (c: int)
    ensures c == 1 <==> opts.isGray
    ensures c == 3 <==> !opts.isGray
  {
    if opts.isGray then 1 else 3
  }

  /** A tensor decoded with `Channels(opts)` channels is read back as a Gray
      image exactly when `isGray` was set, and as RGBA otherwise. */
  lemma ChannelsMatchImageKind(opts: ImageOptions)
    ensures TensorImage.Classify(Channels(opts)) ==
              Ok(if opts.isGray then TensorImage.Gray else TensorImage.RGBA)
  {
  }

  /** The decode operations `fromImage` can build. */
  datatype Decoder = DecodePng | DecodeJpeg

  /** The format name `image.Decode` reports for the images each decoder reads. */
  function FormatName(d: Decoder): string {
    match d
    case DecodePng => "png"
    case DecodeJpeg => "jpeg"
  }

  /** The decoder for a sniffed format: "png" and "jpeg" are recognised, any
      other name is an invalid image. */
  function SelectDecoder(format: string): (r: Result<Decoder, Error>)
    ensures r == Ok(DecodePng) <==> format == "png"
    ensures r == Ok(DecodeJpeg) <==> format == "jpeg"
    ensures r.Err? <==> format != "png" && format != "jpeg"
    ensures r.Err? ==> r.error == InvalidImage
  {
    if format == "png" then Ok(DecodePng)
    else if format == "jpeg" then Ok(DecodeJpeg)
    else Err(InvalidImage)
  }

  /** `SelectDecoder` and `FormatName` are inverse to each other. */
  lemma SelectDecoderRoundTrip(d: Decoder, format: string)
    ensures SelectDecoder(FormatName(d)) == Ok(d)
    ensures SelectDecoder(format) == Ok(d) ==> format == FormatName(d)
  {
  }

  /** A normalised crop box in [y1, x1, y2, x2] order. */
  datatype Box = Box(y1: int, x1: int, y2: int, x2: int)

  /** The box covering the whole image: no cropping takes place, only resizing. */
  const FullImage: Box := Box(0, 0, 1, 1)

  /** The resize subgraph `fromImage` hands to TensorFlow: decode with a given
      number of channels, cast to float, insert a batch dimension at
      `batchAxis`, then crop and resize every box to `cropSize`. */
  datatype ResizePlan = ResizePlan(
    decoder: Decoder,
    channels: int,
    batchAxis: int,
    boxes: seq<Box>,
    boxIndices: seq<int>,
    cropSize: seq<int>)

  /** The resize plan for a descriptor, an option set and a decoder: one box,
      the full image, taken from batch element 0, resized to the input
      layer's dimensions. */
  function BuildPlan(input: Layer, opts: ImageOptions, d: Decoder): (p: ResizePlan)
    ensures p.decoder == d
    ensures p.channels == 1 <==> opts.isGray
    ensures p.channels == 3 <==> !opts.isGray
    ensures p.boxes == [FullImage] && p.boxIndices == [0]
    ensures |p.boxes| == |p.boxIndices|
    ensures p.cropSize == input.dimensions
    ensures p.batchAxis == 0
  {
    ResizePlan(d, Channels(opts), 0, [FullImage], [0], input.dimensions)
  }

  /** The TensorFlow and image-library calls `fromImage` and `eval` make, each
      returning a value or an error message. */
  datatype Runtime = Runtime(
    // image.Decode: the name of the sniffed format
    sniff: Bytes -> Result<string, string>,
    // tf.NewTensor of the encoded bytes as a string
    newTensor: Bytes -> Result<TensorHandle, string>,
    // scope.Finalize of the resize subgraph
    finalize: ResizePlan -> Result<Graph, string>,
    // tf.NewSession
    newSession: Graph -> Result<Session, string>,
    // session.Run of the resize subgraph, feeding its placeholder; includes
    // the bilinear arithmetic of CropAndResize
    runResize: (Session, TensorHandle) -> Result<TensorHandle, string>,
    // session.Run of the model graph, feeding the operation named by the input
    // key and fetching the one named by the output key; includes the
    // Graph.Operation lookups
    runModel: (Session, string, string, TensorHandle) -> Result<TensorHandle, string>)

  /** The stages of `fromImage`, in the order it runs them. */
  datatype Stage = Copy | Sniff | NewTensor | ChooseDecoder | Finalize | NewSession | RunResize | EvalSession | EvalRun

  const Pipeline: seq<Stage> :=
    [Copy, Sniff, NewTensor, ChooseDecoder, Finalize, NewSession, RunResize, EvalSession, EvalRun]

  /** The outcome of a pipeline run: its result, and the stages that completed
      successfully, in order. */
  datatype Evaluation = Evaluation(result: Result<TensorHandle, Error>, passed: seq<Stage>)

  /** `eval`: a fresh session on the model's graph, then one run from the
      input key to the output key. */
  function Eval(rt: Runtime, m: Model, input: TensorHandle): (ev: Evaluation)
    requires m.input.Some? && m.output.Some?
    ensures ev.passed <= [EvalSession, EvalRun]
    ensures ev.result.Ok? <==> ev.passed == [EvalSession, EvalRun]
    ensures ev.result.Err? ==> ev.result.error.Raised?
    ensures var s := rt.newSession(m.graph);
      && (s.Err? ==> ev == Evaluation(Err(Raised(s.error)), []))
      && (s.Ok? ==>
            var out := rt.runModel(s.value, m.input.value.key, m.output.value.key, input);
            && (out.Err? ==> ev == Evaluation(Err(Raised(out.error)), [EvalSession]))
            && (out.Ok? ==> ev == Evaluation(Ok(out.value), [EvalSession, EvalRun])))
  {
    match rt.newSession(m.graph)
    case Err(e) => Evaluation(Err(Raised(e)), [])
    case Ok(session) =>
      match rt.runModel(session, m.input.value.key, m.output.value.key, input)
      case Err(e) => Evaluation(Err(Raised(e)), [EvalSession])
      case Ok(out) => Evaluation(Ok(out), [EvalSession, EvalRun])
  }

  /** `fromImage`: runs the stages of `Pipeline` in order and stops at the
      first that fails, returning no result and that failure's error. `read`
      is the outcome of copying the image stream. Only the decoder choice
      raises an error of its own; every other error is a foreign call's. */
  function FromImageCore(rt: Runtime, m: Model, read: Result<Bytes, string>, opts: ImageOptions): (ev: Evaluation)
    requires m.input.Some? && m.output.Some?
    ensures ev.passed <= Pipeline
    ensures ev.result.Ok? <==> ev.passed == Pipeline
    ensures ev.result == Err(InvalidImage) <==> ev.result.Err? && Pipeline[|ev.passed|] == ChooseDecoder
    ensures ev.result.Err? && ev.result != Err(InvalidImage) ==> ev.result.error.Raised?
    ensures read.Err? ==> ev == Evaluation(Err(Raised(read.error)), [])
    ensures ev.result.Ok? ==>
              && read.Ok? && rt.sniff(read.value).Ok? && rt.newTensor(read.value).Ok?
              && SelectDecoder(rt.sniff(read.value).value).Ok?
              && rt.newSession(m.graph).Ok?
  {
    match read
    case Err(e) => Evaluation(Err(Raised(e)), [])
    case Ok(bytes) =>
      match rt.sniff(bytes)
      case Err(e) => Evaluation(Err(Raised(e)), Pipeline[..1])
      case Ok(format) =>
        match rt.newTensor(bytes)
        case Err(e) => Evaluation(Err(Raised(e)), Pipeline[..2])
        case Ok(tensor) =>
          match SelectDecoder(format)
          case Err(e) => Evaluation(Err(e), Pipeline[..3])
          case Ok(decoder) =>
            var plan := BuildPlan(m.input.value, opts, decoder);
            match rt.finalize(plan)
            case Err(e) => Evaluation(Err(Raised(e)), Pipeline[..4])
            case Ok(graph) =>
              match rt.newSession(graph)
              case Err(e) => Evaluation(Err(Raised(e)), Pipeline[..5])
              case Ok(session) =>
                match rt.runResize(session, tensor)
                case Err(e) => Evaluation(Err(Raised(e)), Pipeline[..6])
                case Ok(cropped) =>
                  var ev := Eval(rt, m, cropped);
                  Evaluation(ev.result, Pipeline[..7] + ev.passed)
  }

  /** Each stage's failure is returned verbatim, and no later stage runs:
      the run ends with the error of the first call that failed. When no call
      fails, the result is the model's output for the resized image, and the
      resize subgraph handed to TensorFlow is `BuildPlan`'s. */
  lemma FromImageStopsAtFirstFailure(rt: Runtime, m: Model, read: Result<Bytes, string>, opts: ImageOptions)
    requires m.input.Some? && m.output.Some?
    ensures var ev := FromImageCore(rt, m, read, opts);
      && (read.Err? ==> ev == Evaluation(Err(Raised(read.error)), []))
      && (read.Ok? ==>
            var sniffed := rt.sniff(read.value);
            var tensor := rt.newTensor(read.value);
            && (sniffed.Err? ==> ev == Evaluation(Err(Raised(sniffed.error)), [Copy]))
            && (sniffed.Ok? && tensor.Err? ==> ev == Evaluation(Err(Raised(tensor.error)), [Copy, Sniff]))
            && (sniffed.Ok? && tensor.Ok? && SelectDecoder(sniffed.value).Err? ==>
                  ev == Evaluation(Err(InvalidImage), [Copy, Sniff, NewTensor]))
            && (sniffed.Ok? && tensor.Ok? && SelectDecoder(sniffed.value).Ok? ==>
                  var graph := rt.finalize(BuildPlan(m.input.value, opts, SelectDecoder(sniffed.value).value));
                  && (graph.Err? ==> ev == Evaluation(Err(Raised(graph.error)), Pipeline[..4]))
                  && (graph.Ok? ==>
                        var session := rt.newSession(graph.value);
                        && (session.Err? ==> ev == Evaluation(Err(Raised(session.error)), Pipeline[..5]))
                        && (session.Ok? ==>
                              var cropped := rt.runResize(session.value, tensor.value);
                              && (cropped.Err? ==> ev == Evaluation(Err(Raised(cropped.error)), Pipeline[..6]))
                              && (cropped.Ok? ==>
                                    ev == Evaluation(Eval(rt, m, cropped.value).result,
                                                     Pipeline[..7] + Eval(rt, m, cropped.value).passed))))))
  {
  }

  /** An unrecognised format is refused after the bytes were read, sniffed and
      wrapped in a tensor, and before any resize graph or session exists. */
  lemma UnknownFormatCreatesNoSession(rt: Runtime, m: Model, read: Result<Bytes, string>, opts: ImageOptions)
    requires m.input.Some? && m.output.Some?
    ensures var ev := FromImageCore(rt, m, read, opts);
      ev.result == Err(InvalidImage) <==>
        && read.Ok? && rt.sniff(read.value).Ok? && rt.newTensor(read.value).Ok?
        && rt.sniff(read.value).value != "png" && rt.sniff(read.value).value != "jpeg"
    ensures var ev := FromImageCore(rt, m, read, opts);
      ev.result == Err(InvalidImage) ==> Finalize !in ev.passed && NewSession !in ev.passed
  {
  }

  /** A run that succeeds went through every stage, and its result is what the
      model's own graph produced: a session opened on `m.graph`, run from the
      input key to the output key on the resized image. */
  lemma SuccessRunsModel(rt: Runtime, m: Model, read: Result<Bytes, string>, opts: ImageOptions)
    requires m.input.Some? && m.output.Some?
    requires FromImageCore(rt, m, read, opts).result.Ok?
    ensures read.Ok?
    ensures rt.sniff(read.value).Ok?
    ensures rt.sniff(read.value).value == "png" || rt.sniff(read.value).value == "jpeg"
    ensures rt.newTensor(read.value).Ok?
    ensures var plan := BuildPlan(m.input.value, opts, SelectDecoder(rt.sniff(read.value).value).value);
      && rt.finalize(plan).Ok?
      && rt.newSession(rt.finalize(plan).value).Ok?
      && rt.runResize(rt.newSession(rt.finalize(plan).value).value, rt.newTensor(read.value).value).Ok?
      && rt.newSession(m.graph).Ok?
      && Ok(FromImageCore(rt, m, read, opts).result.value) ==
           rt.runModel(rt.newSession(m.graph).value, m.input.value.key, m.output.value.key,
                       rt.runResize(rt.newSession(rt.finalize(plan).value).value, rt.newTensor(read.value).value).value)
    ensures FromImageCore(rt, m, read, opts).passed == Pipeline
  {
  }
}
