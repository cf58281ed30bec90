/** The track's data: sections with their lean/turn options, the list that
    holds them (an array shared by reference), and the current track
    component with its three-state initialisation status. */
module TrackComponents {
  import opened MathModel

  /** The eight numeric options of a section. */
  datatype SectionOptions = SectionOptions(
    lean: real,
    leanTwists: real,
    leanWaves: real,
    leanWaveAngle: real,
    turn: real,
    turnTwists: real,
    turnWaves: real,
    turnWaveAngle: real)

  /** A caller's partial options: a field is either given or absent. */
  datatype OptionsPatch = OptionsPatch(
    lean: Option<real>,
    leanTwists: Option<real>,
    leanWaves: Option<real>,
    leanWaveAngle: Option<real>,
    turn: Option<real>,
    turnTwists: Option<real>,
    turnWaves: Option<real>,
    turnWaveAngle: Option<real>)

  datatype Section = Section(start: int, options: SectionOptions)

  const DefaultOptions := SectionOptions(0.0, 0.0, 0.0, 0.0, 0.0, 0.0, 0.0, 0.0)

  function Given(field: Option<real>, default: real): real {
    match field
    case Some(v) => v
    case None => default
  }

  /** Object spread of the caller's options over the all-zero defaults. */
  function Merge(defaults: SectionOptions, patch: OptionsPatch): SectionOptions {
    SectionOptions(
      Given(patch.lean, defaults.lean),
      Given(patch.leanTwists, defaults.leanTwists),
      Given(patch.leanWaves, defaults.leanWaves),
      Given(patch.leanWaveAngle, defaults.leanWaveAngle),
      Given(patch.turn, defaults.turn),
      Given(patch.turnTwists, defaults.turnTwists),
      Given(patch.turnWaves, defaults.turnWaves),
      Given(patch.turnWaveAngle, defaults.turnWaveAngle))
  }

  /** `new Section(start, options?)`. */
  function NewSection(start: int, options: Option<OptionsPatch>): Section {
    match options
    case None => Section(start, DefaultOptions)
    case Some(patch) => Section(start, Merge(DefaultOptions, patch))
  }

  /** Without options every field is 0. */
  lemma NewSectionDefaults(start: int)
    ensures NewSection(start, None).start == start
    ensures var o := NewSection(start, None).options;
      o.lean == 0.0 && o.leanTwists == 0.0 && o.leanWaves == 0.0 && o.leanWaveAngle == 0.0 &&
      o.turn == 0.0 && o.turnTwists == 0.0 && o.turnWaves == 0.0 && o.turnWaveAngle == 0.0
  {
  }

  /** A supplied field overrides its default; an absent one stays 0. */
  lemma NewSectionOverrides(start: int, patch: OptionsPatch)
    ensures var o := NewSection(start, Some(patch)).options;
      (patch.lean.Some? ==> o.lean == patch.lean.value) && (patch.lean.None? ==> o.lean == 0.0) &&
      (patch.leanTwists.Some? ==> o.leanTwists == patch.leanTwists.value) && (patch.leanTwists.None? ==> o.leanTwists == 0.0) &&
      (patch.leanWaves.Some? ==> o.leanWaves == patch.leanWaves.value) && (patch.leanWaves.None? ==> o.leanWaves == 0.0) &&
      (patch.leanWaveAngle.Some? ==> o.leanWaveAngle == patch.leanWaveAngle.value) && (patch.leanWaveAngle.None? ==> o.leanWaveAngle == 0.0) &&
      (patch.turn.Some? ==> o.turn == patch.turn.value) && (patch.turn.None? ==> o.turn == 0.0) &&
      (patch.turnTwists.Some? ==> o.turnTwists == patch.turnTwists.value) && (patch.turnTwists.None? ==> o.turnTwists == 0.0) &&
      (patch.turnWaves.Some? ==> o.turnWaves == patch.turnWaves.value) && (patch.turnWaves.None? ==> o.turnWaves == 0.0) &&
      (patch.turnWaveAngle.Some? ==> o.turnWaveAngle == patch.turnWaveAngle.value) && (patch.turnWaveAngle.None? ==> o.turnWaveAngle == 0.0)
  {
  }

  /** A JavaScript array of sections: one object that every holder of the
      reference sees change. */
  class SectionList {
    var items: seq<Section>

    constructor (items: seq<Section>)
      ensures this.items == items
    {
      this.items := items;
    }

    /** `Array.prototype.unshift` with one element. */
    method Unshift(s: Section)
      modifies this
      ensures items == [s] + old(items)
    {
      items := [s] + items;
    }
  }

  datatype InitializationStatus = NotInitialized | Initializing | Initialized

  /** The track component. The current builder also reads a
      `trackDefinition` token list from it, which the component class does
      not declare: unless someone sets it, it is undefined (None). The older
      builder keeps its own two undeclared flags on it, `initialized` and
      `initializing`, undefined and so false until it sets them. */
  class TrackComponent {
    var initializationStatus: InitializationStatus
    var rotations: seq<Quat>
    var points: seq<Vec3>
    var sections: SectionList
    var trackDefinition: Option<seq<string>>
    var initialized: bool
    var initializing: bool

    constructor (points: seq<Vec3>, sections: SectionList)
      ensures initializationStatus == NotInitialized && rotations == []
      ensures this.points == points && this.sections == sections
      ensures trackDefinition == None && !initialized && !initializing
    {
      initializationStatus := NotInitialized;
      rotations := [];
      this.points := points;
      this.sections := sections;
      trackDefinition := None;
      initialized := false;
      initializing := false;
    }
  }
}
