/**
 `ConvolutionDemoDSP`: the effect that loads a binaural impulse response chosen by a selector,
 hands it to the audio thread through the `BufferTransfer` mailbox, and runs convolution followed
 by a fixed reverb.

 What the source gets from its collaborators is an input here: the first entry of the parameter
 list (`parameters[0]`), what opening and decoding a named asset yields, and the outcome of the
 audio thread's try-lock. The calls into the convolution and reverb engines are recorded as steps.
 */
module ConvolutionDemo {
  import opened Wrappers
  import opened Handoff

  /** The first entry of the demo's parameter list, after `dynamic_cast<ChoiceParameter *>`:
      either a choice parameter with its currently selected id, or some other kind of parameter. */
  datatype Parameter = ChoiceParameter(selectedId: int) | OtherParameter

  /** What an `AudioFormatReader` reports: `numChannels` is an `unsigned int`, `lengthInSamples` an
      `int64`, `sampleRate` a `double` (only copied, so an exact `real`). */
  datatype ReaderInfo = ReaderInfo(numChannels: nat, lengthInSamples: int, sampleRate: real)

  /** Opening a named asset: no input stream, a stream no registered format can read, or a reader. */
  datatype AssetLoad = NoAssetStream | NoReader | Opened(reader: ReaderInfo)

  /** The selector's options, in id order starting at 1 (`cabinetParam`). */
  const CabinetOptions: seq<string> :=
    ["Bypass", "Front", "Back", "Left", "Right", "Up", "Down", "Left-Up", "Right-Up",
     "Left-Back-Down", "Right-Back-Down", "Left-Back", "Right-Back"]

  /** The id of the "Bypass" option. */
  const BypassId := 1

  predicate IsWavFile(name: string) {
    |name| > 4 && name[|name| - 4..] == ".wav"
  }

  /** The asset a selection id names; ids the switch has no case for leave the name empty. */
  function AssetName(id: int): (name: string)
    ensures name != "" <==> 2 <= id <= 13
    ensures name != "" ==> IsWavFile(name)
  {
    match id
    case 2 => "front.wav"
    case 3 => "back.wav"
    case 4 => "left.wav"
    case 5 => "right.wav"
    case 6 => "up.wav"
    case 7 => "down.wav"
    case 8 => "left50up60.wav"
    case 9 => "right50up60.wav"
    case 10 => "left140down30.wav"
    case 11 => "right132down30.wav"
    case 12 => "left220.wav"
    case 13 => "right140.wav"
    case _ => ""
  }

  /** The twelve asset ids name twelve different assets. */
  lemma AssetNamesDistinct(i: int, j: int)
    requires 2 <= i <= 13 && 2 <= j <= 13 && i != j
    ensures AssetName(i) != AssetName(j)
  {
  }

  /** Every option of the selector other than "Bypass" names an asset. */
  lemma EveryOptionNamesAnAsset(id: int)
    requires 1 <= id <= |CabinetOptions|
    ensures id == BypassId || IsWavFile(AssetName(id))
  {
  }

  /** `static_cast<int>` of an integer that may not fit: the value modulo 2^32, read as a signed
      32-bit int. */
  function Int32Cast(x: int): (r: int)
    ensures -0x8000_0000 <= r < 0x8000_0000
    ensures (x - r) % 0x1_0000_0000 == 0
    ensures -0x8000_0000 <= x < 0x8000_0000 ==> r == x
  {
    var m := x % 0x1_0000_0000;
    if m < 0x8000_0000 then m else m - 0x1_0000_0000
  }

  /** The buffer read from a reader: as many channels and samples as the reader reports, at its
      sample rate, as long as both counts fit in an `int`. */
  function BufferFromReader(rd: ReaderInfo): (b: BufferWithSampleRate)
    ensures b.sampleRate == rd.sampleRate
    ensures rd.numChannels < 0x8000_0000 ==> b.numChannels == rd.numChannels
    ensures 0 <= rd.lengthInSamples < 0x8000_0000 ==> b.numSamples == rd.lengthInSamples
  {
    BufferWithSampleRate(Int32Cast(rd.numChannels), Int32Cast(rd.lengthInSamples), rd.sampleRate)
  }

  /** What `updateParameters` does to the effect, given the parameter and the asset loader. */
  datatype Resolution = NoChange | BypassOn | BypassOff | BypassOffAndPublish(buffer: BufferWithSampleRate)

  function Resolve(first: Parameter, assets: string -> AssetLoad): (r: Resolution)
    ensures r.NoChange? <==> first.OtherParameter?
    ensures r.BypassOn? <==> first == ChoiceParameter(BypassId)
    ensures r.BypassOffAndPublish? <==>
              first.ChoiceParameter? && first.selectedId != BypassId &&
              assets(AssetName(first.selectedId)).Opened?
    ensures r.BypassOffAndPublish? ==>
              r.buffer == BufferFromReader(assets(AssetName(first.selectedId)).reader)
  {
    match first
    case OtherParameter => NoChange
    case ChoiceParameter(id) =>
      if id == BypassId then BypassOn
      else match assets(AssetName(id))
        case NoAssetStream => BypassOff
        case NoReader => BypassOff
        case Opened(rd) => BypassOffAndPublish(BufferFromReader(rd))
  }

  /** The bypass flag after a resolution. */
  function BypassAfter(bypass: bool, r: Resolution): bool {
    match r
    case NoChange => bypass
    case BypassOn => true
    case _ => false
  }

  /** A selection of an asset id turns bypass off whether or not the asset loads; only a
      successful load publishes, and then the buffer published is the one read from that asset. */
  lemma SelectingAnAssetLeavesBypass(id: int, assets: string -> AssetLoad, bypass: bool)
    requires 2 <= id <= 13
    ensures var r := Resolve(ChoiceParameter(id), assets);
            !BypassAfter(bypass, r) &&
            (r.BypassOffAndPublish? <==> assets(AssetName(id)).Opened?)
  {
  }

  /** One step of `process`, in the order they happen. */
  datatype Step =
    | ContextBypassed(isBypassed: bool)
    | MailboxPoll(lockAcquired: bool)
    | LoadImpulseResponse(buffer: BufferWithSampleRate)
    | ConvolutionProcess(bypassed: bool)
    | ReverbProcess(bypassed: bool)

  /** The steps of one `process` call, given the bypass flag, the try-lock outcome and what the
      mailbox delivered. */
  function ProcessSteps(bypass: bool, lockAcquired: bool, delivered: Option<BufferWithSampleRate>): (s: seq<Step>)
    ensures |s| >= 4 && s[0] == ContextBypassed(bypass) && s[1] == MailboxPoll(lockAcquired)
    ensures forall i :: 0 <= i < |s| ==> (s[i].MailboxPoll? <==> i == 1)
    ensures s[|s| - 2] == ConvolutionProcess(bypass) && s[|s| - 1] == ReverbProcess(bypass)
    ensures forall i :: 0 <= i < |s| - 2 ==> !s[i].ConvolutionProcess? && !s[i].ReverbProcess?
    ensures delivered.Some? <==> |s| == 5
    ensures delivered.Some? ==> s[2] == LoadImpulseResponse(delivered.value)
    ensures forall i :: 0 <= i < |s| ==> (s[i].LoadImpulseResponse? <==> delivered.Some? && i == 2)
  {
    [ContextBypassed(bypass), MailboxPoll(lockAcquired)] +
    (if delivered.Some? then [LoadImpulseResponse(delivered.value)] else []) +
    [ConvolutionProcess(bypass), ReverbProcess(bypass)]
  }

  /** What the callback of `process` leaves in the slot: its sample buffer has been moved into the
      convolution engine, leaving an empty one; the sample rate stays. */
  function HandOver(b: BufferWithSampleRate): BufferWithSampleRate {
    BufferWithSampleRate(0, 0, b.sampleRate)
  }

  class ConvolutionDemoDSP {
    var sampleRate: real
    var bypass: bool
    const bufferTransfer: BufferTransfer

    ghost predicate Valid()
      reads this, bufferTransfer
    {
      bufferTransfer.Valid()
    }

    constructor ()
      ensures Valid() && fresh(bufferTransfer)
      ensures sampleRate == 0.0 && !bypass
      ensures bufferTransfer.history == [] && bufferTransfer.NextDelivery() == None
    {
      sampleRate := 0.0;
      bypass := false;
      bufferTransfer := new BufferTransfer();
    }

    /** `updateParameters`: read the selection, set the bypass flag, and on an asset id publish the
        decoded asset. A failed load returns early, with bypass already off. */
    method UpdateParameters(first: Parameter, assets: string -> AssetLoad)
      requires Valid()
      modifies this, bufferTransfer
      ensures Valid()
      ensures sampleRate == old(sampleRate)
      ensures var r := Resolve(first, assets);
              bypass == BypassAfter(old(bypass), r) &&
              bufferTransfer.history ==
                old(bufferTransfer.history) + (if r.BypassOffAndPublish? then [Publish(r.buffer)] else []) &&
              bufferTransfer.NextDelivery() ==
                (if r.BypassOffAndPublish? then Some(r.buffer) else old(bufferTransfer.NextDelivery()))
      ensures !Resolve(first, assets).BypassOffAndPublish? ==> unchanged(bufferTransfer)
    {
      if first.OtherParameter? {
        return;
      }
      if first.selectedId == BypassId {
        bypass := true;
      } else {
        bypass := false;
        var assetName := AssetName(first.selectedId);
        var load := assets(assetName);
        if load.NoAssetStream? {
          return;
        }
        if load.NoReader? {
          return;
        }
        bufferTransfer.Set(BufferFromReader(load.reader));
      }
    }

    /** `prepare`: remember the sample rate, then apply the current selection. Preparing the
        convolution and reverb engines and setting the reverb's constants are not modelled. */
    method Prepare(rate: real, first: Parameter, assets: string -> AssetLoad)
      requires Valid()
      modifies this, bufferTransfer
      ensures Valid()
      ensures sampleRate == rate
      ensures var r := Resolve(first, assets);
              bypass == BypassAfter(old(bypass), r) &&
              bufferTransfer.history ==
                old(bufferTransfer.history) + (if r.BypassOffAndPublish? then [Publish(r.buffer)] else []) &&
              bufferTransfer.NextDelivery() ==
                (if r.BypassOffAndPublish? then Some(r.buffer) else old(bufferTransfer.NextDelivery()))
    ensures !Resolve(first, assets).BypassOffAndPublish? ==> unchanged(bufferTransfer)
    {
      sampleRate := rate;
      UpdateParameters(first, assets);
    }

    /** `process`: copy bypass into the context, poll the mailbox once (loading a delivered impulse
        response), then run convolution and reverb on the context. */
    method Process(lockAcquired: bool) returns (steps: seq<Step>)
      requires Valid()
      modifies bufferTransfer
      ensures Valid()
      ensures steps == ProcessSteps(bypass, lockAcquired,
                                    if lockAcquired then old(bufferTransfer.NextDelivery()) else None)
      ensures bufferTransfer.history == old(bufferTransfer.history) + [Poll(lockAcquired)]
      ensures bufferTransfer.NextDelivery() ==
                (if lockAcquired then None else old(bufferTransfer.NextDelivery()))
    {
      var isBypassed := bypass;
      steps := [ContextBypassed(isBypassed), MailboxPoll(lockAcquired)];
      var delivered := bufferTransfer.Get(lockAcquired, HandOver);
      if delivered.Some? {
        steps := steps + [LoadImpulseResponse(delivered.value)];
      }
      steps := steps + [ConvolutionProcess(isBypassed), ReverbProcess(isBypassed)];
    }
  }

  /** Selecting an asset that loads: the next block loads exactly that asset's buffer and runs
      convolution and reverb un-bypassed; the block after it loads nothing. */
  method SelectAssetThenProcess(id: int, assets: string -> AssetLoad, rate: real)
    returns (firstBlock: seq<Step>, secondBlock: seq<Step>)
    requires 2 <= id <= 13 && assets(AssetName(id)).Opened?
    ensures firstBlock == [ContextBypassed(false), MailboxPoll(true),
                           LoadImpulseResponse(BufferFromReader(assets(AssetName(id)).reader)),
                           ConvolutionProcess(false), ReverbProcess(false)]
    ensures secondBlock == [ContextBypassed(false), MailboxPoll(true),
                            ConvolutionProcess(false), ReverbProcess(false)]
  {
    var dsp := new ConvolutionDemoDSP();
    dsp.Prepare(rate, ChoiceParameter(id), assets);
    firstBlock := dsp.Process(true);
    secondBlock := dsp.Process(true);
  }

  /** Selecting "Bypass" on a fresh effect: every block runs bypassed and nothing is loaded. */
  method BypassThenProcess(assets: string -> AssetLoad, rate: real, lockAcquired: bool)
    returns (block: seq<Step>)
    ensures block == [ContextBypassed(true), MailboxPoll(lockAcquired),
                      ConvolutionProcess(true), ReverbProcess(true)]
  {
    var dsp := new ConvolutionDemoDSP();
    dsp.Prepare(rate, ChoiceParameter(BypassId), assets);
    block := dsp.Process(lockAcquired);
  }

  /** As written, a failed load after "Bypass" still switches bypass off: the next block runs
      convolution and reverb un-bypassed although no impulse response was ever loaded. */
  method FailedLoadAfterBypass(id: int, assets: string -> AssetLoad, rate: real)
    returns (block: seq<Step>)
    requires id != BypassId && !assets(AssetName(id)).Opened?
    ensures block == [ContextBypassed(false), MailboxPoll(true),
                      ConvolutionProcess(false), ReverbProcess(false)]
  {
    var dsp := new ConvolutionDemoDSP();
    dsp.Prepare(rate, ChoiceParameter(BypassId), assets);
    dsp.UpdateParameters(ChoiceParameter(id), assets);
    block := dsp.Process(true);
  }
}
