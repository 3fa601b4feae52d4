/** The default preprocessing pipeline `DUKE_Dataset3D.__init__` composes:
    nine stages in a fixed order, each optional one replaced by the
    identity `tio.Lambda(lambda x: x)` when its option is off. Stages are
    descriptors; their effect on voxels is not modelled. */
module DukeTransforms {
  import opened Common

  /** The shape and spacing arguments, passed through unchanged. */
  type Size = seq<int>
  type Spacing = seq<real>

  /** The masking method of the intensity normalization: `x > 0`. */
  datatype Mask = Positive

  datatype Stage =
    | Identity
    | Resize(shape: Size)
    | Resample(spacing: Spacing)
    | RandomFlip(axes: seq<nat>, flipProbability: real)
    | CropOrPad(size: Size, randomCenter: bool)
    | ZNormalization(perChannel: bool, perSlice: bool, lowPercentile: real, highPercentile: real, mask: Mask)
    | RandomAffine(scales: int, degrees: seq<int>, translation: int, isotropic: bool)
    | RandomNoise
    | ImageOrSubjectToTensor

  /** What a call to the dataset may apply: the composed pipeline or a
      `transform` supplied by the caller, which is opaque. */
  datatype Transform = Compose(stages: seq<Stage>) | Supplied(callable: nat)

  /** The constructor flags that shape the default pipeline. */
  datatype PipelineOptions = PipelineOptions(
    imageResize: Option<Size>, resample: Option<Spacing>, flip: bool,
    randomRotate: bool, imageCrop: Option<Size>, randomCenter: bool,
    noise: bool, toTensor: bool)

  /** The constructor's defaults: crop to (224, 224, 32), tensor output. */
  const DefaultOptions: PipelineOptions :=
    PipelineOptions(None, None, false, false, Some([224, 224, 32]), false, false, true)

  /** A stage whose output can differ between two calls on the same input. */
  predicate IsRandom(st: Stage) {
    match st
    case RandomFlip(_, p) => p < 1.0
    case CropOrPad(_, randomCenter) => randomCenter
    case RandomAffine(_, _, _, _) => true
    case RandomNoise => true
    case _ => false
  }

  /** The list handed to `tio.Compose`. */
  function DefaultPipeline(o: PipelineOptions): (r: seq<Stage>)
    ensures |r| == 9
    ensures r[0].Identity? <==> o.imageResize.None?
    ensures o.imageResize.Some? ==> r[0] == Resize(o.imageResize.value)
    ensures r[1].Identity? <==> o.resample.None?
    ensures o.resample.Some? ==> r[1] == Resample(o.resample.value)
    ensures r[2] == RandomFlip([1], 1.0)
    ensures r[3].Identity? <==> !o.flip
    ensures o.flip ==> r[3] == RandomFlip([0, 1, 2], 0.5)
    ensures r[4].Identity? <==> o.imageCrop.None?
    ensures o.imageCrop.Some? ==> r[4] == CropOrPad(o.imageCrop.value, o.randomCenter)
    ensures r[5] == ZNormalization(true, false, 0.5, 99.5, Positive)
    ensures r[6].Identity? <==> !o.randomRotate
    ensures o.randomRotate ==> r[6] == RandomAffine(0, [0, 0, 0, 0, 0, 90], 0, true)
    ensures r[7].Identity? <==> !o.noise
    ensures o.noise ==> r[7] == RandomNoise
    ensures r[8].Identity? <==> !o.toTensor
    ensures o.toTensor ==> r[8] == ImageOrSubjectToTensor
    ensures ImageOrSubjectToTensor in r ==> r[8] == ImageOrSubjectToTensor
  {
    [
      if o.imageResize.Some? then Resize(o.imageResize.value) else Identity,
      if o.resample.Some? then Resample(o.resample.value) else Identity,
      RandomFlip([1], 1.0),
      if o.flip then RandomFlip([0, 1, 2], 0.5) else Identity,
      if o.imageCrop.Some? then CropOrPad(o.imageCrop.value, o.randomCenter) else Identity,
      ZNormalization(true, false, 0.5, 99.5, Positive),
      if o.randomRotate then RandomAffine(0, [0, 0, 0, 0, 0, 90], 0, true) else Identity,
      if o.noise then RandomNoise else Identity,
      if o.toTensor then ImageOrSubjectToTensor else Identity
    ]
  }

  /** The default pipeline is deterministic exactly when every augmentation
      option is off: no random flip, rotation or noise, and no random crop
      centre on a crop that is applied. */
  lemma DeterministicIffAugmentationsOff(o: PipelineOptions)
    ensures (forall i :: 0 <= i < 9 ==> !IsRandom(DefaultPipeline(o)[i])) <==>
      !o.flip && !o.randomRotate && !o.noise && !(o.imageCrop.Some? && o.randomCenter)
  {
    var r := DefaultPipeline(o);
    if o.flip { assert IsRandom(r[3]); }
    if o.randomRotate { assert IsRandom(r[6]); }
    if o.noise { assert IsRandom(r[7]); }
    if o.imageCrop.Some? && o.randomCenter { assert IsRandom(r[4]); }
  }

  /** The transform the dataset applies: a supplied one replaces the whole
      default pipeline. */
  function ChooseTransform(transform: Option<Transform>, o: PipelineOptions): (t: Transform)
    ensures transform.Some? ==> t == transform.value
    ensures transform.None? ==> t.Compose? && |t.stages| == 9 && t.stages == DefaultPipeline(o)
  {
    if transform.Some? then transform.value else Compose(DefaultPipeline(o))
  }

  /** With the constructor's defaults the pipeline is deterministic, crops
      or pads to (224, 224, 32) around the centre and ends in a tensor. */
  lemma DefaultOptionsPipeline()
    ensures forall i :: 0 <= i < 9 ==> !IsRandom(DefaultPipeline(DefaultOptions)[i])
    ensures DefaultPipeline(DefaultOptions)[4] == CropOrPad([224, 224, 32], false)
    ensures DefaultPipeline(DefaultOptions)[8] == ImageOrSubjectToTensor
  {
    DeterministicIffAugmentationsOff(DefaultOptions);
  }
}
