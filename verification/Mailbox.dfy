/**
 One RTSP camera: a decoder thread that overwrites a one-image slot, and a publisher thread
 that empties it, with the cached converter and JPEG encoder each of them keeps.

 The slot is touched under a mutex only, so any interleaving of the steps below can happen.
 */
module Mailbox {
  import opened Wrappers

  const MAX_SIDE: int := 8192

  datatype Shape = Shape(width: int, height: int, format: int)
  datatype Size = Size(width: int, height: int)

  /** A converted image; `number` counts the images converted before it. */
  datatype Image = Image(number: nat, size: Size)

  /** Which parts of a JPEG encoder rebuild succeed. */
  datatype Rebuild = Rebuild(codec: bool, open: bool, frame: bool, converter: bool)

  /** The publisher's cached encoder, its frame, its converter, and the size they were for. */
  datatype Jpeg = Jpeg(encoder: Option<Size>, frame: Option<Size>, converter: Option<Size>, size: Size)

  /** What an encoding was made with. */
  datatype Encoding = Encoding(encoder: Size, frame: Size, converter: Size, image: Size)
  datatype Conversion = Conversion(converter: Shape, frame: Shape)

  datatype Camera = Camera(
    latest: Option<Image>,
    stop: bool,
    running: bool,
    hand: Option<Image>,
    converter: Option<Shape>,
    source: Shape,
    jpeg: Jpeg,
    converted: seq<Image>,
    overwritten: nat,
    published: seq<Image>,
    conversions: seq<Conversion>,
    encodings: seq<Encoding>)

  datatype Event =
    | NewSession                                             // the decoder starts over with no converter
    | Decode(frame: Shape, contextMade: bool, scaled: bool)  // one frame out of the decoder
    | Take                                                   // the publisher looks into the slot
    | Emit(compress: bool, rebuild: Rebuild)                 // the publisher sends the image in hand
    | EmitFails                                              // publishing throws
    | Stop                                                   // shutdown, or another worker failed

  function Fresh(): Camera {
    var none := Size(0, 0);
    Camera(None, false, true, None, None, Shape(0, 0, -1), Jpeg(None, None, None, none), [], 0, [], [], [])
  }

  predicate Usable(f: Shape) {
    1 <= f.width <= MAX_SIDE && 1 <= f.height <= MAX_SIDE
  }

  function Prepare(c: Camera, f: Shape, contextMade: bool): Camera {
    if c.converter.None? || f != c.source
    then c.(converter := if contextMade then Some(f) else None, source := f)
    else c
  }

  function Store(c: Camera, size: Size): Camera {
    var image := Image(|c.converted|, size);
    c.(latest := Some(image), converted := c.converted + [image],
       overwritten := c.overwritten + if c.latest.Some? then 1 else 0)
  }

  /** The converter is applied to the frame. */
  function Use(c: Camera, f: Shape): Camera
    requires c.converter.Some?
  {
    c.(conversions := c.conversions + [Conversion(c.converter.value, f)])
  }

  function DecodeFrame(c: Camera, f: Shape, contextMade: bool, scaled: bool): Camera {
    if !Usable(f) then c
    else
      var ready := Prepare(c, f, contextMade);
      if ready.converter.None? then ready
      else
        var used := Use(ready, f);
        if scaled then Store(used, Size(f.width, f.height)) else used
  }

  predicate JpegReady(j: Jpeg) {
    j.encoder.Some? && j.frame.Some? && j.converter.Some?
  }

  function RebuildJpeg(j: Jpeg, size: Size, r: Rebuild): Jpeg {
    if JpegReady(j) && j.size == size then j
    else
      var encoder := if r.codec && r.open then Some(size) else None;
      Jpeg(encoder,
           if encoder.Some? && r.frame then encoder else None,
           if encoder.Some? && r.converter then encoder else None,
           size)
  }

  function TakeLatest(c: Camera): Camera {
    if !c.running || c.hand.Some? then c
    else if c.stop then c.(running := false)
    else c.(hand := c.latest, latest := None)
  }

  /** The JPEG side of a turn: an encoder that fits, used if it is complete. */
  function Compress(c: Camera, size: Size, rebuild: Rebuild): Camera {
    var jpeg := RebuildJpeg(c.jpeg, size, rebuild);
    c.(jpeg := jpeg,
       encodings := if JpegReady(jpeg)
                    then c.encodings + [Encoding(jpeg.encoder.value, jpeg.frame.value, jpeg.converter.value, size)]
                    else c.encodings)
  }

  function EmitImage(c: Camera, compress: bool, rebuild: Rebuild): Camera {
    if !c.running || c.hand.None? then c
    else
      var image := c.hand.value;
      var ready := if compress then Compress(c, image.size, rebuild) else c;
      ready.(hand := None, published := c.published + [image])
  }

  function Step(c: Camera, e: Event): Camera {
    match e
    case NewSession => c.(converter := None, source := Shape(0, 0, -1))
    case Decode(frame, contextMade, scaled) => DecodeFrame(c, frame, contextMade, scaled)
    case Take => TakeLatest(c)
    case Emit(compress, rebuild) => EmitImage(c, compress, rebuild)
    case EmitFails => if c.running && c.hand.Some? then c.(running := false, stop := true) else c
    case Stop => c.(stop := true)
  }

  function Run(c: Camera, es: seq<Event>): Camera
    decreases es
  {
    if es == [] then c else Run(Step(c, es[0]), es[1..])
  }

  // ---------- invariant ----------

  predicate WasConverted(c: Camera, image: Image) {
    image.number < |c.converted| && c.converted[image.number] == image
  }

  predicate SlotInv(c: Camera) {
    && (c.latest.Some? ==> WasConverted(c, c.latest.value) && c.latest.value.number == |c.converted| - 1)
    && (c.hand.Some? ==> WasConverted(c, c.hand.value))
    && (c.hand.Some? && c.latest.Some? ==> c.hand.value.number < c.latest.value.number)
    && (c.converted != [] && c.latest.None? ==>
          if c.hand.Some? then c.hand.value.number == |c.converted| - 1
          else c.published != [] && c.published[|c.published| - 1].number == |c.converted| - 1)
  }

  /** The i-th published image was converted, after the one before it. */
  predicate GoodPublication(c: Camera, i: nat)
    requires i < |c.published|
  {
    WasConverted(c, c.published[i]) && (i > 0 ==> c.published[i - 1].number < c.published[i].number)
  }

  predicate PublishedInv(c: Camera) {
    && (forall i :: 0 <= i < |c.published| ==> GoodPublication(c, i))
    && (c.published != [] ==>
          var last := c.published[|c.published| - 1].number;
          && (c.hand.Some? ==> last < c.hand.value.number)
          && (c.latest.Some? ==> last < c.latest.value.number))
  }

  function Held(o: Option<Image>): nat {
    if o.Some? then 1 else 0
  }

  predicate Conserved(c: Camera) {
    |c.converted| == |c.published| + c.overwritten + Held(c.latest) + Held(c.hand)
  }

  predicate ImageInv(c: Camera) {
    SlotInv(c) && PublishedInv(c) && Conserved(c)
  }

  predicate CacheInv(c: Camera) {
    && (c.converter.Some? ==> c.converter.value == c.source)
    && (c.jpeg.encoder.Some? ==> c.jpeg.encoder.value == c.jpeg.size)
    && (c.jpeg.frame.Some? ==> c.jpeg.frame.value == c.jpeg.size)
    && (c.jpeg.converter.Some? ==> c.jpeg.converter.value == c.jpeg.size)
    && (forall i :: 0 <= i < |c.conversions| ==> c.conversions[i].converter == c.conversions[i].frame)
    && (forall i :: 0 <= i < |c.encodings| ==>
          c.encodings[i].encoder == c.encodings[i].frame == c.encodings[i].converter == c.encodings[i].image)
  }

  predicate Inv(c: Camera) {
    ImageInv(c) && CacheInv(c)
  }

  lemma PublicationsStay(c: Camera, c': Camera)
    requires forall i :: 0 <= i < |c.published| ==> GoodPublication(c, i)
    requires c.converted <= c'.converted && c.published <= c'.published
    ensures forall i :: 0 <= i < |c.published| ==> GoodPublication(c', i)
  {
    forall i | 0 <= i < |c.published| ensures GoodPublication(c', i) {
      assert GoodPublication(c, i);
    }
  }

  lemma StoreKeeps(c: Camera, size: Size)
    requires ImageInv(c)
    ensures ImageInv(Store(c, size))
  {
    PublicationsStay(c, Store(c, size));
    if c.published != [] {
      assert GoodPublication(c, |c.published| - 1);
    }
  }

  lemma PrepareKeeps(c: Camera, f: Shape, contextMade: bool)
    requires Inv(c)
    ensures Inv(Prepare(c, f, contextMade))
    ensures var ready := Prepare(c, f, contextMade); ready.converter.Some? ==> ready.converter.value == f
  {
    hide ImageInv;
    SameImages(c, Prepare(c, f, contextMade));
  }

  lemma DecodeKeeps(c: Camera, f: Shape, contextMade: bool, scaled: bool)
    requires Inv(c)
    ensures Inv(DecodeFrame(c, f, contextMade, scaled))
  {
    hide Store, Prepare, ImageInv;
    if Usable(f) {
      PrepareKeeps(c, f, contextMade);
      var ready := Prepare(c, f, contextMade);
      if ready.converter.Some? {
        var used := Use(ready, f);
        SameImages(ready, used);
        StoreKeeps(used, Size(f.width, f.height));
        StoreKeepsCaches(used, Size(f.width, f.height));
      }
    }
  }

  lemma StoreKeepsCaches(c: Camera, size: Size)
    requires CacheInv(c)
    ensures CacheInv(Store(c, size))
  {
  }

  lemma SameImages(c: Camera, c': Camera)
    requires ImageInv(c)
    requires c'.latest == c.latest && c'.hand == c.hand && c'.converted == c.converted
    requires c'.published == c.published && c'.overwritten == c.overwritten
    ensures ImageInv(c')
  {
    PublicationsStay(c, c');
  }

  lemma TakeKeeps(c: Camera)
    requires Inv(c)
    ensures Inv(TakeLatest(c))
  {
    PublicationsStay(c, TakeLatest(c));
  }

  lemma EmitKeeps(c: Camera, compress: bool, rebuild: Rebuild)
    requires Inv(c)
    ensures Inv(EmitImage(c, compress, rebuild))
  {
    var c' := EmitImage(c, compress, rebuild);
    PublicationsStay(c, c');
    assert c'.published != c.published ==> GoodPublication(c', |c.published|);
  }

  lemma StepInv(c: Camera, e: Event)
    requires Inv(c)
    ensures Inv(Step(c, e))
  {
    hide DecodeFrame, EmitImage, TakeLatest;
    match e
    case Decode(frame, contextMade, scaled) => DecodeKeeps(c, frame, contextMade, scaled);
    case Emit(compress, rebuild) => EmitKeeps(c, compress, rebuild);
    case Take => TakeKeeps(c);
    case _ => SameImages(c, Step(c, e));
  }

  lemma {:induction false} RunInv(c: Camera, es: seq<Event>)
    requires Inv(c)
    ensures Inv(Run(c, es))
    decreases es
  {
    if es != [] {
      StepInv(c, es[0]);
      RunInv(Step(c, es[0]), es[1..]);
    }
  }

  // ---------- what is converted ----------

  /** The converter that fits after a usable frame: the cached one, or a new one if it can be
      made. */
  function Fitting(cached: Option<Shape>, f: Shape, contextMade: bool): Option<Shape> {
    if cached == Some(f) || contextMade then Some(f) else None
  }

  function CachedAfter(e: Event, cached: Option<Shape>): Option<Shape> {
    match e
    case NewSession => None
    case Decode(f, contextMade, _) => if Usable(f) then Fitting(cached, f, contextMade) else cached
    case _ => cached
  }

  /** Whether an event gets a frame converted: a usable one for which there is a converter and
      which it scales. */
  predicate Converts(e: Event, cached: Option<Shape>) {
    e.Decode? && Usable(e.frame) && Fitting(cached, e.frame, e.contextMade).Some? && e.scaled
  }

  /** The sizes of the frames that the events get converted, told from the events alone. */
  function Convertible(es: seq<Event>, cached: Option<Shape>): seq<Size>
    decreases es
  {
    if es == [] then []
    else
      (if Converts(es[0], cached) then [Size(es[0].frame.width, es[0].frame.height)] else [])
      + Convertible(es[1..], CachedAfter(es[0], cached))
  }

  function SizesOf(images: seq<Image>): seq<Size> {
    seq(|images|, i requires 0 <= i < |images| => images[i].size)
  }

  predicate Numbered(images: seq<Image>) {
    forall i :: 0 <= i < |images| ==> images[i].number == i
  }

  lemma StepConverts(c: Camera, e: Event)
    requires CacheInv(c)
    ensures Step(c, e).converter == CachedAfter(e, c.converter)
    ensures Step(c, e).converted == c.converted
              + if Converts(e, c.converter) then [Image(|c.converted|, Size(e.frame.width, e.frame.height))] else []
  {
    hide RebuildJpeg;
  }

  lemma {:induction false} RunConverts(c: Camera, es: seq<Event>)
    requires Inv(c) && Numbered(c.converted)
    ensures Numbered(Run(c, es).converted)
    ensures SizesOf(Run(c, es).converted) == SizesOf(c.converted) + Convertible(es, c.converter)
    decreases es
  {
    hide Step, Inv, Converts, CachedAfter;
    if es != [] {
      InvHasCaches(c);
      StepConverts(c, es[0]);
      StepInv(c, es[0]);
      RunConverts(Step(c, es[0]), es[1..]);
    }
  }

  lemma InvHasCaches(c: Camera)
    requires Inv(c)
    ensures CacheInv(c)
  {
  }

  /** No frame is lost on the way into the slot: over any run, the images converted are exactly
      the convertible frames of the events, in order. */
  lemma ConvertedAreDecoded(es: seq<Event>)
    ensures var c := Run(Fresh(), es); Numbered(c.converted) && SizesOf(c.converted) == Convertible(es, None)
  {
    RunConverts(Fresh(), es);
  }

  /** A frame of 1 to 8192 lines and columns that a converter fits and scales takes the slot,
      whatever was in it; any other leaves it. */
  lemma FrameTakesSlot(c: Camera, f: Shape, contextMade: bool, scaled: bool)
    requires CacheInv(c)
    ensures var c' := Step(c, Decode(f, contextMade, scaled));
      var image := Image(|c.converted|, Size(f.width, f.height));
      if 1 <= f.width <= 8192 && 1 <= f.height <= 8192 && scaled && (c.converter == Some(f) || contextMade)
      then c'.latest == Some(image) && c'.converted == c.converted + [image]
      else c'.latest == c.latest && c'.converted == c.converted
  {
  }

  /** A publisher that has ended does nothing more. */
  lemma EndedPublisherRests(c: Camera, compress: bool, r: Rebuild)
    requires !c.running
    ensures Step(c, Take) == c && Step(c, Emit(compress, r)) == c && Step(c, EmitFails) == c
  {
  }

  /** The stop flag is raised from outside at any time. */
  lemma StopRaisesFlag(c: Camera)
    ensures Step(c, Stop) == c.(stop := true)
  {
  }

  /** The publisher compresses exactly when it is asked to and has, or can build, a complete
      encoder of the image's size; the raw image goes out in any case. */
  lemma EmitsIff(c: Camera, compress: bool, r: Rebuild)
    requires c.running && c.hand.Some?
    ensures var c' := Step(c, Emit(compress, r));
      var fits := JpegReady(c.jpeg) && c.jpeg.size == c.hand.value.size;
      && c'.published == c.published + [c.hand.value] && c'.hand == None && c'.running
      && |c'.encodings| == |c.encodings|
           + if compress && (fits || (r.codec && r.open && r.frame && r.converter)) then 1 else 0
  {
  }

  /** A publisher that fails stops, and stops the node, without publishing. */
  lemma FailureStops(c: Camera)
    requires c.running && c.hand.Some?
    ensures var c' := Step(c, EmitFails); !c'.running && c'.stop && c'.published == c.published
  {
  }

  /** A publisher that finds the stop flag up ends; otherwise it takes what is in the slot. */
  lemma TakesIff(c: Camera)
    requires c.running && c.hand.None?
    ensures var c' := Step(c, Take);
      && (c'.running <==> !c.stop)
      && (!c.stop ==> c'.hand == c.latest && c'.latest == None)
  {
  }

  // ---------- theorems ----------

  lemma {:induction false} PublishedInOrder(c: Camera, i: nat, j: nat)
    requires i < j < |c.published|
    requires forall k :: 0 <= k < |c.published| ==> GoodPublication(c, k)
    ensures c.published[i].number < c.published[j].number
    decreases j
  {
    assert GoodPublication(c, j);
    if i < j - 1 {
      PublishedInOrder(c, i, j - 1);
    }
  }

  /** Under any interleaving of decoder and publisher, the raw images published are a
      duplicate-free, in-order subsequence of the images converted, and every converted image
      is published, overwritten, in the slot, or in the publisher's hand. */
  lemma MailboxSafety(es: seq<Event>)
    ensures var c := Run(Fresh(), es);
      && (forall i :: 0 <= i < |c.published| ==>
            c.published[i].number < |c.converted| && c.published[i] == c.converted[c.published[i].number])
      && (forall i, j :: 0 <= i < j < |c.published| ==> c.published[i].number < c.published[j].number)
      && |c.converted| == |c.published| + c.overwritten + Held(c.latest) + Held(c.hand)
  {
    RunInv(Fresh(), es);
    var c := Run(Fresh(), es);
    forall i | 0 <= i < |c.published| ensures WasConverted(c, c.published[i]) {
      assert GoodPublication(c, i);
    }
    forall i, j | 0 <= i < j < |c.published| ensures c.published[i].number < c.published[j].number {
      PublishedInOrder(c, i, j);
    }
  }

  /** When the decoder falls quiet and nothing stops or fails, the publisher's next steps send
      the newest image: the last one published is then the last convertible frame of the events,
      and nothing is left over. */
  lemma NewestIsDelivered(es: seq<Event>, compress: bool, rebuild: Rebuild)
    requires var c := Run(Fresh(), es); c.running && !c.stop
    requires Convertible(es, None) != []
    ensures var c, frames := Run(Fresh(), es), Convertible(es, None);
      var d := Run(c, [Emit(compress, rebuild), Take, Emit(compress, rebuild)]);
      && d.converted == c.converted && d.latest == None && d.hand == None
      && d.published != []
      && d.published[|d.published| - 1] == Image(|frames| - 1, frames[|frames| - 1])
  {
    var c := Run(Fresh(), es);
    ConvertedAreDecoded(es);
    assert |SizesOf(c.converted)| == |Convertible(es, None)|;
    var last := |c.converted| - 1;
    assert SizesOf(c.converted)[last] == c.converted[last].size;
    RunInv(Fresh(), es);
    ThreeSteps(c, Emit(compress, rebuild), Take, Emit(compress, rebuild));
    DrainDelivers(c, compress, rebuild);
  }

  lemma DrainDelivers(c: Camera, compress: bool, rebuild: Rebuild)
    requires Inv(c) && c.running && !c.stop && c.converted != []
    ensures var d := EmitImage(TakeLatest(EmitImage(c, compress, rebuild)), compress, rebuild);
      && d.converted == c.converted && d.latest == None && d.hand == None
      && d.published != [] && d.published[|d.published| - 1] == c.converted[|c.converted| - 1]
  {
    hide RebuildJpeg, CacheInv, ImageInv;
    EmitKeeps(c, compress, rebuild);
    var c1 := EmitImage(c, compress, rebuild);
    TakeKeeps(c1);
    var c2 := TakeLatest(c1);
    EmitKeeps(c2, compress, rebuild);
    var d := EmitImage(c2, compress, rebuild);
    EmptyMeansDelivered(d);
  }

  lemma EmptyMeansDelivered(c: Camera)
    requires ImageInv(c) && c.converted != [] && c.latest.None? && c.hand.None?
    ensures c.published != [] && c.published[|c.published| - 1] == c.converted[|c.converted| - 1]
  {
    assert GoodPublication(c, |c.published| - 1);
  }

  lemma ThreeSteps(c: Camera, e: Event, f: Event, g: Event)
    ensures Run(c, [e, f, g]) == Step(Step(Step(c, e), f), g)
  {
    hide Step;
    var c3 := Step(Step(Step(c, e), f), g);
    assert [g][1..] == [] && [f, g][1..] == [g] && [e, f, g][1..] == [f, g];
    assert Run(c3, []) == c3;
    assert Run(Step(Step(c, e), f), [g]) == c3;
    assert Run(Step(c, e), [f, g]) == c3;
  }

  /** The cached converter and encoder always match what they are applied to, in every run:
      reconnects, failed rebuilds and changes of size included. */
  lemma CachesMatch(es: seq<Event>)
    ensures var c := Run(Fresh(), es);
      && (forall i :: 0 <= i < |c.conversions| ==> c.conversions[i].converter == c.conversions[i].frame)
      && (forall i :: 0 <= i < |c.encodings| ==>
            c.encodings[i].encoder == c.encodings[i].frame == c.encodings[i].converter == c.encodings[i].image)
  {
    RunInv(Fresh(), es);
  }

  /** Once stopped, the publisher sends at most the image it already holds. */
  lemma {:induction false} StopEndsPublishing(c: Camera, es: seq<Event>)
    requires c.stop
    ensures var d := Run(c, es);
      && d.stop && c.published <= d.published
      && |d.published| + Held(if d.running then d.hand else None)
         <= |c.published| + Held(if c.running then c.hand else None)
    decreases es
  {
    if es != [] {
      var d := Step(c, es[0]);
      assert d.stop && c.published <= d.published
             && |d.published| + Held(if d.running then d.hand else None)
                <= |c.published| + Held(if c.running then c.hand else None);
      StopEndsPublishing(d, es[1..]);
    }
  }

  // ---------- the threads' own code ----------

  lemma CompressKeepsImages(c: Camera, size: Size, r: Rebuild)
    ensures var c' := Compress(c, size, r);
      c'.published == c.published && c'.hand == c.hand && c'.running == c.running
  {
  }

  /** One frame as the decoder thread meets it, and the outcome of the FFmpeg calls on it. */
  datatype Decoded = Decoded(frame: Shape, contextMade: bool, scaled: bool)

  function DecodeEvents(ds: seq<Decoded>): seq<Event> {
    seq(|ds|, i requires 0 <= i < |ds| => Decode(ds[i].frame, ds[i].contextMade, ds[i].scaled))
  }

  lemma {:induction false} RunSnoc(c: Camera, es: seq<Event>, e: Event)
    ensures Run(c, es + [e]) == Step(Run(c, es), e)
    decreases es
  {
    if es == [] {
      assert es + [e] == [e];
      assert Run(Step(c, e), []) == Step(c, e);
    } else {
      assert (es + [e])[1..] == es[1..] + [e];
      RunSnoc(Step(c, es[0]), es[1..], e);
    }
  }

  class CameraWorker {
    var latest: Option<Image>
    var stop: bool
    var running: bool
    var hand: Option<Image>
    var converter: Option<Shape>
    var sourceWidth: int
    var sourceHeight: int
    var sourceFormat: int
    var encoder: Option<Size>
    var jpegFrame: Option<Size>
    var jpegConverter: Option<Size>
    var jpegWidth: int
    var jpegHeight: int
    /** What passed through the camera. */
    var converted: seq<Image>
    var overwritten: nat
    var published: seq<Image>
    var conversions: seq<Conversion>
    var encodings: seq<Encoding>

    ghost function JpegView(): Jpeg
      reads this
    {
      Jpeg(encoder, jpegFrame, jpegConverter, Size(jpegWidth, jpegHeight))
    }

    ghost function View(): Camera
      reads this
    {
      Camera(latest, stop, running, hand, converter, Shape(sourceWidth, sourceHeight, sourceFormat),
             JpegView(), converted, overwritten, published, conversions, encodings)
    }

    constructor ()
      ensures View() == Fresh()
    {
      latest, stop, running, hand, converter := None, false, true, None, None;
      sourceWidth, sourceHeight, sourceFormat := 0, 0, -1;
      encoder, jpegFrame, jpegConverter, jpegWidth, jpegHeight := None, None, None, 0, 0;
      converted, overwritten, published, conversions, encodings := [], 0, [], [], [];
    }

    method PrepareConverter(f: Shape, contextMade: bool)
      modifies this`converter, this`sourceWidth, this`sourceHeight, this`sourceFormat
      ensures View() == Prepare(old(View()), f, contextMade)
    {
      if converter.None? || f.width != sourceWidth || f.height != sourceHeight || f.format != sourceFormat {
        converter := if contextMade then Some(f) else None;
        sourceWidth, sourceHeight, sourceFormat := f.width, f.height, f.format;
      }
    }

    /** Overwrite the sole pending image. */
    method StoreImage(size: Size)
      modifies this`latest, this`overwritten, this`converted
      ensures View() == Store(old(View()), size)
    {
      if latest.Some? {
        overwritten := overwritten + 1;
      }
      latest := Some(Image(|converted|, size));
      converted := converted + [latest.value];
    }

    /** Convert a usable frame and put it into the slot. */
    method DecodeOne(d: Decoded)
      modifies this
      ensures View() == DecodeFrame(old(View()), d.frame, d.contextMade, d.scaled)
    {
      hide Prepare, Store;
      var f := d.frame;
      if f.width < 1 || f.height < 1 || f.width > MAX_SIDE || f.height > MAX_SIDE {
        return;
      }
      PrepareConverter(f, d.contextMade);
      if converter.Some? {
        conversions := conversions + [Conversion(converter.value, f)];
        if d.scaled {
          StoreImage(Size(f.width, f.height));
        }
      }
    }

    /** The frame loop of decode_session. */
    method DecodePacket(frames: seq<Decoded>)
      modifies this
      ensures View() == Run(old(View()), DecodeEvents(frames))
    {
      hide DecodeFrame;
      for i := 0 to |frames|
        invariant View() == Run(old(View()), DecodeEvents(frames[..i]))
      {
        var d := frames[i];
        assert DecodeEvents(frames[..i + 1]) == DecodeEvents(frames[..i]) + [Decode(d.frame, d.contextMade, d.scaled)];
        RunSnoc(old(View()), DecodeEvents(frames[..i]), Decode(d.frame, d.contextMade, d.scaled));
        DecodeOne(d);
      }
      assert frames[..|frames|] == frames;
    }

    /** The start of a turn of publish_loop. */
    method TakeImage()
      requires running && hand.None?
      modifies this
      ensures View() == TakeLatest(old(View()))
    {
      if stop {
        running := false;
        return;
      }
      hand := latest;
      latest := None;
    }

    /** Keep the encoder if it fits the image, else build a new one, as far as FFmpeg lets it. */
    method PrepareEncoder(size: Size, r: Rebuild)
      modifies this`encoder, this`jpegFrame, this`jpegConverter, this`jpegWidth, this`jpegHeight
      ensures JpegView() == RebuildJpeg(old(JpegView()), size, r)
    {
      if encoder.None? || jpegFrame.None? || jpegConverter.None?
         || jpegWidth != size.width || jpegHeight != size.height
      {
        encoder, jpegFrame, jpegConverter := None, None, None;
        if r.codec {
          encoder := Some(size);
          if !r.open {
            encoder := None;
          }
        }
        if encoder.Some? {
          if r.frame {
            jpegFrame := encoder;
          }
          if r.converter {
            jpegConverter := encoder;
          }
        }
        jpegWidth, jpegHeight := size.width, size.height;
      }
    }

    method CompressImage(size: Size, r: Rebuild)
      modifies this
      ensures View() == Compress(old(View()), size, r)
    {
      hide RebuildJpeg;
      PrepareEncoder(size, r);
      if encoder.Some? && jpegFrame.Some? && jpegConverter.Some? {
        encodings := encodings + [Encoding(encoder.value, jpegFrame.value, jpegConverter.value, size)];
      }
    }

    /** The rest of the turn: compress if asked to, then publish the raw image. */
    method PublishImage(compress: bool, r: Rebuild)
      requires running && hand.Some?
      modifies this
      ensures View() == EmitImage(old(View()), compress, r)
    {
      hide Compress;
      var image := hand.value;
      if compress {
        CompressKeepsImages(View(), image.size, r);
        CompressImage(image.size, r);
      }
      published := published + [image];
      hand := None;
    }

    /** fail_worker() and the destructor raise the stop flag. */
    method RequestStop()
      modifies this`stop
      ensures View() == Step(old(View()), Stop)
    {
      stop := true;
    }
  }

  /** wait_reconnect(): sleep in slices of at most 100 ms.  `stopped(k)` is the stop flag after
      k slices.  It waits the whole delay or leaves at the first slice that finds the flag up. */
  method WaitReconnect(delayMs: int, stopped: nat -> bool) returns (slept: int, slices: nat, again: bool)
    requires delayMs >= 1
    ensures forall k :: 0 <= k < slices ==> !stopped(k)
    ensures again <==> !stopped(slices)
    ensures again ==> slept == delayMs
    ensures slept == (if 100 * slices < delayMs then 100 * slices else delayMs)
    ensures 100 * (slices - 1) < delayMs
  {
    var remaining := delayMs;
    slept, slices := 0, 0;
    while !stopped(slices) && remaining > 0
      invariant 0 <= remaining == delayMs - slept
      invariant slept == (if 100 * slices < delayMs then 100 * slices else delayMs)
      invariant 100 * (slices - 1) < delayMs
      invariant forall k :: 0 <= k < slices ==> !stopped(k)
      decreases remaining
    {
      var slice := if remaining < 100 then remaining else 100;
      slept := slept + slice;
      remaining := remaining - slice;
      slices := slices + 1;
    }
    again := !stopped(slices);
  }
}
