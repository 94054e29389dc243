/**
 * The `Runner` of process.py as a state machine over its own fields: session
 * lifecycle (`setup`, `close_down`), template-set selection
 * (`change_template`), classification with the capture side effect
 * (`process`), the capture flag (`raise_template_flag`), catalogue refresh
 * (`get_weight_sets`, `get_template_sets`) and the weight path of
 * `archive_selected`.
 *
 * The module-level catalogues `weight_sets` and `template_paths` are fields
 * here. Opening and releasing the compute session is recorded in
 * `sessionLog`; template writes sent to storage are recorded in `writes`.
 */
module Runners {
  import opened Wrappers
  import opened Python
  import opened Types
  import opened Matching
  import opened Archive

  /** Session events alternate, starting with an open: no session is ever
      opened while another is still open. */
  predicate Alternating(log: seq<SessionEvent>)
  {
    forall k :: 0 <= k < |log| ==> (log[k].Opened? <==> k % 2 == 0)
  }

  /** Prefix the runner puts in front of a descriptor's session name. */
  const WeightSetDirectory: string := "weight_sets/"

  /** `self.collect_template_flag` when no capture is pending. */
  const NoCapture: int := -1

  /** Formats every frame of a batch into a freshly zeroed buffer, one row per frame. */
  method FormatBatch<Frame>(format: Formatter<Frame>, width: nat, frames: seq<Frame>) returns (data: seq<Feature>)
    ensures |data| == |frames|
    ensures forall k :: 0 <= k < |frames| ==> data[k] == format(width, frames[k])
  {
    var zero := seq(2 * width, _ => Float32(0));
    var buffer := new Feature[|frames|](_ => zero);
    for i := 0 to |frames|
      invariant forall k :: 0 <= k < i ==> buffer[k] == format(width, frames[k])
    {
      buffer[i] := format(width, frames[i]);
    }
    data := buffer[..];
  }

  /** The batch the comparator receives for a list of frames. */
  function Formatted<Frame>(format: Formatter<Frame>, width: nat, frames: seq<Frame>): (batch: seq<Feature>)
  {
    seq(|frames|, k requires 0 <= k < |frames| => format(width, frames[k]))
  }

  /** What `process` returns once the comparator has run: the classification,
      or IndexError when a best index is out of range. */
  function Answer(c: Option<Classification>): (r: Outcome<Option<Classification>>)
  {
    match c
    case None => IndexError
    case Some(cl) => Returned(Some(cl))
  }

  class Runner<Frame> {
    var weightSets: seq<WeightSet>
    var templatePaths: seq<string>
    var running: bool
    var index: int
    var size: (nat, nat)
    var numLayers: int
    var sessionName: string
    var formatterWidth: nat
    var templateIndex: int
    var templates: seq<Feature>
    var templateLabels: seq<TemplateLabel>
    var collectTemplateFlag: int
    var sessionLog: seq<SessionEvent>
    var writes: seq<TemplateWrite<Frame>>

    /** A session is open exactly when `running` is set, and opens and
        releases alternate. */
    ghost predicate SessionsAlternate()
      reads this
    {
      Alternating(sessionLog) && (running <==> |sessionLog| % 2 == 1)
    }

    /** Moreover the open session is the one loaded for `sessionName`, the
        name the comparator is bound to. */
    ghost predicate Valid()
      reads this
    {
      SessionsAlternate()
      && (running ==> sessionLog[|sessionLog| - 1] == Opened(sessionName))
    }

    /** `Runner()`: select weight set 0 and template set 0, no capture pending.
        Python raises unless both catalogues are non-empty. */
    constructor (weightSets: seq<WeightSet>, templatePaths: seq<string>, read: TemplateReader)
      requires |weightSets| > 0 && |templatePaths| > 0
      ensures Valid() && running
      ensures this.weightSets == weightSets && this.templatePaths == templatePaths
      ensures index == 0 && templateIndex == 0 && collectTemplateFlag == NoCapture
      ensures size == (weightSets[0].width, weightSets[0].height)
      ensures numLayers == weightSets[0].numLayers && formatterWidth == weightSets[0].width
      ensures sessionName == WeightSetDirectory + weightSets[0].sessionName
      ensures (templates, templateLabels) == read(weightSets[0].width, templatePaths[0])
      ensures sessionLog == [Opened(sessionName)] && writes == []
    {
      this.weightSets := weightSets;
      this.templatePaths := templatePaths;
      running := false;
      index, size, numLayers, sessionName, formatterWidth := 0, (0, 0), 0, "", 0;
      templateIndex, templates, templateLabels := 0, [], [];
      collectTemplateFlag := NoCapture;
      sessionLog, writes := [], [];
      new;
      var setupDone := Setup(0);
      var selected := ChangeTemplate(0, read);
      collectTemplateFlag := NoCapture;
    }

    /** `close_down()`: release the session if one is open; afterwards none is. */
    method CloseDown()
      requires SessionsAlternate()
      modifies this`running, this`sessionLog
      ensures Valid() && !running
      ensures sessionLog == old(sessionLog) + (if old(running) then [Released] else [])
    {
      if running {
        sessionLog := sessionLog + [Released];
      }
      running := false;
    }

    /** `setup(index)`: the index is recorded first; an index past the end
        returns false and one before the front raises IndexError, both with
        nothing else changed; otherwise the descriptor's size, layer count
        and session name are taken, any open session is released and a new
        one is opened. */
    method Setup(i: int) returns (r: Outcome<bool>)
      requires Valid()
      modifies this`index, this`size, this`numLayers, this`sessionName, this`formatterWidth
      modifies this`running, this`sessionLog
      ensures Valid() && index == i
      ensures i >= |weightSets| ==> r == Returned(false)
      ensures i < -|weightSets| ==> r == IndexError
      ensures !(-|weightSets| <= i < |weightSets|) ==>
        running == old(running) && sessionLog == old(sessionLog)
        && size == old(size) && numLayers == old(numLayers)
        && sessionName == old(sessionName) && formatterWidth == old(formatterWidth)
      ensures -|weightSets| <= i < |weightSets| ==>
        var w := weightSets[i % |weightSets|];
        r == Returned(true) && running
        && size == (w.width, w.height) && numLayers == w.numLayers
        && sessionName == WeightSetDirectory + w.sessionName && formatterWidth == w.width
        && sessionLog == old(sessionLog) + (if old(running) then [Released] else []) + [Opened(sessionName)]
    {
      index := i;
      if |weightSets| <= index {
        return Returned(false);
      }
      var found := Lookup(weightSets, index);
      if found.None? {
        return IndexError;
      }
      var w := found.value;
      size := (w.width, w.height);
      numLayers := w.numLayers;
      sessionName := WeightSetDirectory + w.sessionName;
      formatterWidth := size.0;
      CloseDown();
      running := true;
      sessionLog := sessionLog + [Opened(sessionName)];
      r := Returned(true);
    }

    /** `change_template(index)`: false only when the index is past the length
        of the catalogue; an index equal to the length passes that check, is
        recorded and then raises IndexError, as does one before the front;
        otherwise the template set is read with the current formatter. */
    method ChangeTemplate(t: int, read: TemplateReader) returns (r: Outcome<bool>)
      modifies this`templateIndex, this`templates, this`templateLabels
      ensures t > |templatePaths| ==> r == Returned(false) && templateIndex == old(templateIndex)
      ensures t <= |templatePaths| ==> templateIndex == t
      ensures t == |templatePaths| || t < -|templatePaths| ==> r == IndexError
      ensures -|templatePaths| <= t < |templatePaths| ==>
        r == Returned(true) && (templates, templateLabels) == read(formatterWidth, templatePaths[t % |templatePaths|])
      ensures !(-|templatePaths| <= t < |templatePaths|) ==>
        templates == old(templates) && templateLabels == old(templateLabels)
    {
      if |templatePaths| < t {
        return Returned(false);
      }
      templateIndex := t;
      var name := Lookup(templatePaths, templateIndex);
      if name.None? {
        return IndexError;
      }
      var loaded := read(formatterWidth, name.value);
      templates, templateLabels := loaded.0, loaded.1;
      r := Returned(true);
    }

    /** `raise_template_flag(label)`: the last raise wins. */
    method RaiseTemplateFlag(classId: int)
      modifies this`collectTemplateFlag
      ensures collectTemplateFlag == classId
    {
      collectTemplateFlag := classId;
    }

    /** `process(frames)`: None while no session runs. A list of frames is
        formatted row by row and classified, and never touches the capture
        flag. A single frame is classified and, when a capture is pending,
        written to the current template directory under the pending label,
        after which the flag is cleared. IndexError leaves the flag and the
        writes as they were. */
    method Process(input: Input<Frame>, format: Formatter<Frame>, compare: Comparator)
      returns (r: Outcome<Option<Classification>>)
      requires Valid()
      modifies this`collectTemplateFlag, this`writes
      ensures Valid()
      ensures !running ==> r == Returned(None)
      ensures !running || input.Batch? ==>
        collectTemplateFlag == old(collectTemplateFlag) && writes == old(writes)
      ensures running && input.Batch? ==>
        r == Answer(Classify(templateLabels,
               compare(sessionName, Formatted(format, formatterWidth, input.frames), templates)))
      ensures running && input.Single? ==>
        var c := Classify(templateLabels, compare(sessionName, [format(formatterWidth, input.frame)], templates));
        var directory := Lookup(templatePaths, templateIndex);
        if c.None? || (old(collectTemplateFlag) >= 0 && directory.None?) then
          r == IndexError && collectTemplateFlag == old(collectTemplateFlag) && writes == old(writes)
        else if old(collectTemplateFlag) < 0 then
          r == Returned(c) && collectTemplateFlag == old(collectTemplateFlag) && writes == old(writes)
        else
          r == Returned(c) && collectTemplateFlag == NoCapture
          && writes == old(writes) + [TemplateWrite(input.frame, old(collectTemplateFlag), formatterWidth, directory.value)]
    {
      if !running {
        return Returned(None);
      }
      match input
      case Batch(frames) =>
        var data := FormatBatch(format, formatterWidth, frames);
        assert data == Formatted(format, formatterWidth, frames);
        var c := Classify(templateLabels, compare(sessionName, data, templates));
        r := Answer(c);
      case Single(frame) =>
        var data := format(formatterWidth, frame);
        var c := Classify(templateLabels, compare(sessionName, [data], templates));
        if c.None? {
          return IndexError;
        }
        if collectTemplateFlag >= 0 {
          var directory := Lookup(templatePaths, templateIndex);
          if directory.None? {
            return IndexError;
          }
          writes := writes + [TemplateWrite(frame, collectTemplateFlag, formatterWidth, directory.value)];
          collectTemplateFlag := NoCapture;
        }
        r := Returned(c);
    }

    /** `get_weight_sets()`: the catalogue is replaced by a fresh discovery;
        the current index is reported as it stands, valid or not. */
    method GetWeightSets(discovered: seq<WeightSet>) returns (sets: seq<WeightSet>, current: int)
      modifies this`weightSets
      ensures weightSets == discovered && sets == discovered && current == index
    {
      weightSets := discovered;
      sets, current := weightSets, index;
    }

    /** `get_template_sets()`: as `get_weight_sets`, for template directories. */
    method GetTemplateSets(discovered: seq<string>) returns (paths: seq<string>, current: int)
      modifies this`templatePaths
      ensures templatePaths == discovered && paths == discovered && current == templateIndex
    {
      templatePaths := discovered;
      paths, current := templatePaths, templateIndex;
    }

    /** The weight path `archive_selected` copies: None when `self.index` does
        not select a descriptor (IndexError), otherwise that descriptor's
        session name without its last `/`-separated segment. */
    function ArchiveWeightPath(): (r: Option<string>)
      reads this
      ensures r.Some? <==> -|weightSets| <= index < |weightSets|
      ensures r.Some? ==>
        var name := weightSets[index % |weightSets|].sessionName;
        r.value == WeightPath(name)
        && |r.value| <= |name| && name[..|r.value|] == r.value
        && ('/' !in name ==> r.value == "")
        && ('/' in name ==>
              |r.value| < |name| && name[|r.value|] == '/' && '/' !in name[|r.value| + 1..])
    {
      match Lookup(weightSets, index)
      case None => None
      case Some(w) =>
        WeightPathDropsLastSegment(w.sessionName);
        WeightPathIsPrefix(w.sessionName);
        Some(WeightPath(w.sessionName))
    }
  }

  /** Closing twice: the second call releases nothing. */
  method CloseDownTwice<Frame>(runner: Runner<Frame>)
    requires runner.Valid()
    modifies runner`running, runner`sessionLog
    ensures runner.Valid() && !runner.running
    ensures runner.sessionLog == old(runner.sessionLog) + (if old(runner.running) then [Released] else [])
  {
    runner.CloseDown();
    ghost var once := runner.sessionLog;
    runner.CloseDown();
    assert runner.sessionLog == once;
  }

  /** The capture protocol across calls: of two raises the last one wins; the
      next single-frame call that is served writes exactly one template under
      that label and clears the flag; a further single-frame call writes nothing. */
  method CaptureOnce<Frame>(runner: Runner<Frame>, first: int, second: int, f1: Frame, f2: Frame,
                            format: Formatter<Frame>, compare: Comparator)
    returns (r1: Outcome<Option<Classification>>, r2: Outcome<Option<Classification>>)
    requires runner.Valid() && second >= 0
    modifies runner`collectTemplateFlag, runner`writes
    ensures runner.Valid()
    ensures !old(runner.running) ==>
      r1 == Returned(None) && r2 == Returned(None)
      && runner.writes == old(runner.writes) && runner.collectTemplateFlag == second
    ensures r1.Returned? && r1.value.Some? ==>
      |runner.writes| == |old(runner.writes)| + 1
      && runner.writes[..|old(runner.writes)|] == old(runner.writes)
      && runner.writes[|old(runner.writes)|].frame == f1
      && runner.writes[|old(runner.writes)|].classId == second
      && runner.collectTemplateFlag == NoCapture
  {
    runner.RaiseTemplateFlag(first);
    runner.RaiseTemplateFlag(second);
    r1 := runner.Process(Single(f1), format, compare);
    ghost var afterFirst := runner.writes;
    r2 := runner.Process(Single(f2), format, compare);
    assert r1.Returned? && r1.value.Some? ==> runner.writes == afterFirst;
  }

  /** Switching weight sets while a session is open releases it before the
      new one opens: the log gains exactly [Released, Opened(name)]. */
  method SwitchWeightSet<Frame>(runner: Runner<Frame>, j: int) returns (r: Outcome<bool>)
    requires runner.Valid() && runner.running
    requires 0 <= j < |runner.weightSets|
    modifies runner`index, runner`size, runner`numLayers, runner`sessionName, runner`formatterWidth
    modifies runner`running, runner`sessionLog
    ensures runner.Valid() && runner.running && r == Returned(true)
    ensures runner.sessionLog == old(runner.sessionLog) + [Released, Opened(runner.sessionName)]
    ensures runner.sessionName == WeightSetDirectory + old(runner.weightSets)[j].sessionName
  {
    assert j % |runner.weightSets| == j;
    r := runner.Setup(j);
  }
}
