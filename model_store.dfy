/**
 * The model store's `init`: the three preset models are rebuilt in front of
 * the user's own models, keeping the ids the presets had before, and the
 * current model is looked up again in the new list.
 *
 * The resolved resource directory, the platform separator and the ids
 * `nanoid()` would generate are parameters.
 */
module ModelStore {
  import opened Wrappers
  import Path

  datatype ModelMode = Standard | Keyboard | Gamepad

  function ModeName(mode: ModelMode): string {
    match mode
    case Standard => "standard"
    case Keyboard => "keyboard"
    case Gamepad => "gamepad"
  }

  datatype Model = Model(id: string, path: string, mode: ModelMode, isPreset: bool)

  /** The order `init` visits the modes in; each one is put in front of the list. */
  const INIT_ORDER: seq<ModelMode> := [Gamepad, Keyboard, Standard]

  /** `filter(models, { isPreset: false })`. */
  function NonPresets(models: seq<Model>): (r: seq<Model>)
    ensures |r| <= |models|
    ensures forall k :: 0 <= k < |r| ==> !r[k].isPreset
  {
    if models == [] then []
    else (if models[0].isPreset then [] else [models[0]]) + NonPresets(models[1..])
  }

  /** `filter(models, { isPreset: true })`. */
  function Presets(models: seq<Model>): (r: seq<Model>)
    ensures |r| <= |models|
    ensures forall k :: 0 <= k < |r| ==> r[k].isPreset
  {
    if models == [] then []
    else (if models[0].isPreset then [models[0]] else []) + Presets(models[1..])
  }

  /** `find(models, { mode })`: the first model of that mode. */
  function FindByMode(models: seq<Model>, mode: ModelMode): (r: Option<Model>)
    ensures r.Some? ==> r.value in models && r.value.mode == mode
    ensures r.None? ==> forall k :: 0 <= k < |models| ==> models[k].mode != mode
  {
    if models == [] then None
    else if models[0].mode == mode then Some(models[0])
    else FindByMode(models[1..], mode)
  }

  /** `find(models, { id })`: the first model with that id. */
  function FindById(models: seq<Model>, id: string): (r: Option<Model>)
    ensures r.Some? ==> r.value in models && r.value.id == id
    ensures r.None? ==> forall k :: 0 <= k < |models| ==> models[k].id != id
  {
    if models == [] then None
    else if models[0].id == id then Some(models[0])
    else FindById(models[1..], id)
  }

  /**
   * The preset `init` builds for one mode: it keeps the id of an old preset of
   * that mode, and takes the fresh id only when there is none.
   */
  function PresetFor(oldPresets: seq<Model>, mode: ModelMode, freshId: string, modelsPath: string, sep: char): (r: Model)
    ensures r.isPreset && r.mode == mode
    ensures (forall k :: 0 <= k < |oldPresets| ==> oldPresets[k].mode != mode) ==> r.id == freshId
  {
    var id := match FindByMode(oldPresets, mode) case Some(m) => m.id case None => freshId;
    Model(id, Path.Join([modelsPath, ModeName(mode)], sep), mode, true)
  }

  /**
   * The list `init` leaves behind: the standard, keyboard and gamepad presets,
   * then the old non-preset models. `freshIds[i]` is the id generated on the
   * loop's `i`-th round, when it needs one.
   */
  function MergedModels(models: seq<Model>, modelsPath: string, sep: char, freshIds: seq<string>): (r: seq<Model>)
    requires |freshIds| == 3
    ensures |r| == |NonPresets(models)| + 3 && |r| <= |models| + 3
    ensures r[0].mode == Standard && r[1].mode == Keyboard && r[2].mode == Gamepad
  {
    var presets := Presets(models);
    [PresetFor(presets, Standard, freshIds[2], modelsPath, sep),
     PresetFor(presets, Keyboard, freshIds[1], modelsPath, sep),
     PresetFor(presets, Gamepad, freshIds[0], modelsPath, sep)]
    + NonPresets(models)
  }

  /** `find(nextModels, { id: current?.id }) ?? nextModels[0]`. */
  function SelectCurrent(models: seq<Model>, current: Option<Model>): (r: Model)
    requires models != []
    ensures r in models
    ensures current.Some? && (exists k :: 0 <= k < |models| && models[k].id == current.value.id) ==> r.id == current.value.id
  {
    if current.None? then models[0]
    else match FindById(models, current.value.id)
      case Some(m) => m
      case None => models[0]
  }

  class Store {
    var models: seq<Model>
    var currentModel: Option<Model>

    constructor()
      ensures models == [] && currentModel == None
    {
      models := [];
      currentModel := None;
    }

    /** `init`. */
    method Init(modelsPath: string, sep: char, freshIds: seq<string>)
      requires |freshIds| == 3
      modifies this
      ensures models == MergedModels(old(models), modelsPath, sep, freshIds)
      ensures currentModel == Some(SelectCurrent(models, old(currentModel)))
    {
      var nextModels := NonPresets(models);
      var presetModels := Presets(models);
      ghost var rest := nextModels;
      for i := 0 to |INIT_ORDER|
        invariant nextModels == BuiltPresets(presetModels, freshIds, modelsPath, sep, i) + rest
        invariant unchanged(this)
      {
        var mode := INIT_ORDER[i];
        var matched := FindByMode(presetModels, mode);
        var id := if matched.Some? then matched.value.id else freshIds[i];
        var preset := Model(id, Path.Join([modelsPath, ModeName(mode)], sep), mode, true);
        PresetRound(presetModels, freshIds, modelsPath, sep, i, preset, nextModels, rest);
        nextModels := [preset] + nextModels;
      }
      assert |INIT_ORDER| == 3;
      LoopBuildsMerged(models, modelsPath, sep, freshIds);
      currentModel := Some(SelectCurrent(nextModels, currentModel));
      models := nextModels;
    }
  }

  /** The presets the loop of `init` has put in front after `i` rounds, most recent first. */
  function BuiltPresets(presets: seq<Model>, freshIds: seq<string>, modelsPath: string, sep: char, i: nat): seq<Model>
    requires i <= |INIT_ORDER| && |freshIds| == 3
  {
    if i == 0 then []
    else
      [PresetFor(presets, INIT_ORDER[i - 1], freshIds[i - 1], modelsPath, sep)]
      + BuiltPresets(presets, freshIds, modelsPath, sep, i - 1)
  }

  /** One round of the loop of `init` puts the next preset in front. */
  lemma PresetRound(presets: seq<Model>, freshIds: seq<string>, modelsPath: string, sep: char, i: nat,
                    preset: Model, before: seq<Model>, rest: seq<Model>)
    requires i < |INIT_ORDER| && |freshIds| == 3
    requires preset.mode == INIT_ORDER[i] && preset.isPreset
    requires preset.path == Path.Join([modelsPath, ModeName(INIT_ORDER[i])], sep)
    requires preset.id == match FindByMode(presets, INIT_ORDER[i]) case Some(m) => m.id case None => freshIds[i]
    requires before == BuiltPresets(presets, freshIds, modelsPath, sep, i) + rest
    ensures [preset] + before == BuiltPresets(presets, freshIds, modelsPath, sep, i + 1) + rest
  {
    assert preset == PresetFor(presets, INIT_ORDER[i], freshIds[i], modelsPath, sep);
    BuiltStep(presets, freshIds, modelsPath, sep, i);
    var built := BuiltPresets(presets, freshIds, modelsPath, sep, i);
    assert [preset] + (built + rest) == ([preset] + built) + rest;
  }

  /** The loop's next round puts the preset of the next mode in front. */
  lemma BuiltStep(presets: seq<Model>, freshIds: seq<string>, modelsPath: string, sep: char, i: nat)
    requires i < |INIT_ORDER| && |freshIds| == 3
    ensures BuiltPresets(presets, freshIds, modelsPath, sep, i + 1)
      == [PresetFor(presets, INIT_ORDER[i], freshIds[i], modelsPath, sep)] + BuiltPresets(presets, freshIds, modelsPath, sep, i)
  {
  }

  /** After its three rounds, the loop of `init` has built the merged list. */
  lemma LoopBuildsMerged(models: seq<Model>, modelsPath: string, sep: char, freshIds: seq<string>)
    requires |freshIds| == 3
    ensures BuiltPresets(Presets(models), freshIds, modelsPath, sep, 3) + NonPresets(models)
      == MergedModels(models, modelsPath, sep, freshIds)
  {
    var p := Presets(models);
    var g := PresetFor(p, Gamepad, freshIds[0], modelsPath, sep);
    var k := PresetFor(p, Keyboard, freshIds[1], modelsPath, sep);
    var st := PresetFor(p, Standard, freshIds[2], modelsPath, sep);
    assert BuiltPresets(p, freshIds, modelsPath, sep, 0) == [];
    assert BuiltPresets(p, freshIds, modelsPath, sep, 1) == [g];
    assert BuiltPresets(p, freshIds, modelsPath, sep, 2) == [k, g];
    assert BuiltPresets(p, freshIds, modelsPath, sep, 3) ==
      [PresetFor(p, Standard, freshIds[2], modelsPath, sep),
       PresetFor(p, Keyboard, freshIds[1], modelsPath, sep),
       PresetFor(p, Gamepad, freshIds[0], modelsPath, sep)];
  }

  // ---------------------------------------------------------------------------
  // Properties

  /**
   * The new list is the three presets, standard first, then the old
   * non-preset models; its length is their number plus three.
   */
  lemma MergedShape(models: seq<Model>, modelsPath: string, sep: char, freshIds: seq<string>)
    requires |freshIds| == 3
    ensures var r := MergedModels(models, modelsPath, sep, freshIds);
      |r| == |NonPresets(models)| + 3 &&
      r[0].mode == Standard && r[1].mode == Keyboard && r[2].mode == Gamepad &&
      (forall k :: 0 <= k < 3 ==> r[k].isPreset && r[k].path == Path.Join([modelsPath, ModeName(r[k].mode)], sep)) &&
      r[3..] == NonPresets(models) &&
      (forall k :: 3 <= k < |r| ==> !r[k].isPreset)
  {
    var r := MergedModels(models, modelsPath, sep, freshIds);
    var p := Presets(models);
    var head := [PresetFor(p, Standard, freshIds[2], modelsPath, sep),
                 PresetFor(p, Keyboard, freshIds[1], modelsPath, sep),
                 PresetFor(p, Gamepad, freshIds[0], modelsPath, sep)];
    assert r == head + NonPresets(models);
    forall k | 0 <= k < 3
      ensures r[k].isPreset && r[k].path == Path.Join([modelsPath, ModeName(r[k].mode)], sep)
    {
      assert r[k] == head[k];
    }
    assert r[3..] == NonPresets(models);
    forall k | 3 <= k < |r|
      ensures !r[k].isPreset
    {
      assert r[k] == NonPresets(models)[k - 3];
    }
  }

  /** The first old preset of a mode is what the lookup among the old presets finds. */
  lemma {:induction false} FirstPresetFound(models: seq<Model>, mode: ModelMode, j: int)
    requires 0 <= j < |models| && models[j].isPreset && models[j].mode == mode
    requires forall i :: 0 <= i < j ==> !(models[i].isPreset && models[i].mode == mode)
    ensures FindByMode(Presets(models), mode) == Some(models[j])
  {
    var rest := Presets(models[1..]);
    if models[0].isPreset {
      assert Presets(models) == [models[0]] + rest;
      assert Presets(models)[1..] == rest;
    } else {
      assert Presets(models) == rest;
    }
    if j > 0 {
      FirstPresetFound(models[1..], mode, j - 1);
    }
  }

  lemma {:induction false} NoPresetFound(models: seq<Model>, mode: ModelMode)
    requires forall i :: 0 <= i < |models| ==> !(models[i].isPreset && models[i].mode == mode)
    ensures FindByMode(Presets(models), mode) == None
  {
    if models != [] {
      NoPresetFound(models[1..], mode);
    }
  }

  /** A rebuilt preset keeps the id of the first old preset of its mode. */
  lemma PresetIdReused(models: seq<Model>, mode: ModelMode, j: int, freshId: string, modelsPath: string, sep: char)
    requires 0 <= j < |models| && models[j].isPreset && models[j].mode == mode
    requires forall i :: 0 <= i < j ==> !(models[i].isPreset && models[i].mode == mode)
    ensures PresetFor(Presets(models), mode, freshId, modelsPath, sep).id == models[j].id
  {
    FirstPresetFound(models, mode, j);
  }

  /** A mode with no old preset gets the freshly generated id. */
  lemma PresetIdFresh(models: seq<Model>, mode: ModelMode, freshId: string, modelsPath: string, sep: char)
    requires forall i :: 0 <= i < |models| ==> !(models[i].isPreset && models[i].mode == mode)
    ensures PresetFor(Presets(models), mode, freshId, modelsPath, sep).id == freshId
  {
    NoPresetFound(models, mode);
  }

  /** Filtering out presets distributes over concatenation, so the kept models stay in their order. */
  lemma {:induction false} NonPresetsAppend(a: seq<Model>, b: seq<Model>)
    ensures NonPresets(a + b) == NonPresets(a) + NonPresets(b)
  {
    if a == [] {
      assert a + b == b;
    } else {
      assert (a + b)[1..] == a[1..] + b;
      NonPresetsAppend(a[1..], b);
    }
  }

  /** A list with no presets goes through the filter unchanged. */
  lemma {:induction false} NonPresetsOfUserModels(models: seq<Model>)
    requires forall k :: 0 <= k < |models| ==> !models[k].isPreset
    ensures NonPresets(models) == models
  {
    if models != [] {
      NonPresetsOfUserModels(models[1..]);
    }
  }

  /** Running `init` again on its own result gives the same list back. */
  lemma MergedStable(models: seq<Model>, modelsPath: string, sep: char, freshIds: seq<string>, freshIds2: seq<string>)
    requires |freshIds| == 3 && |freshIds2| == 3
    ensures var r := MergedModels(models, modelsPath, sep, freshIds);
      MergedModels(r, modelsPath, sep, freshIds2) == r
  {
    var r := MergedModels(models, modelsPath, sep, freshIds);
    MergedSplits(models, modelsPath, sep, freshIds);
    MergedShape(models, modelsPath, sep, freshIds);
    var p := r[..3];
    assert p == [r[0], r[1], r[2]];
    assert FindByMode(p, Standard) == Some(r[0]);
    assert PresetFor(p, Standard, freshIds2[2], modelsPath, sep) == r[0];
    assert p[1..] == [r[1], r[2]];
    assert FindByMode(p, Keyboard) == Some(r[1]);
    assert PresetFor(p, Keyboard, freshIds2[1], modelsPath, sep) == r[1];
    assert p[1..][1..] == [r[2]];
    assert FindByMode(p, Gamepad) == Some(r[2]);
    assert PresetFor(p, Gamepad, freshIds2[0], modelsPath, sep) == r[2];
    assert r == p + r[3..];
  }

  /** The merged list splits back into its presets and its user models. */
  lemma MergedSplits(models: seq<Model>, modelsPath: string, sep: char, freshIds: seq<string>)
    requires |freshIds| == 3
    ensures var r := MergedModels(models, modelsPath, sep, freshIds);
      Presets(r) == r[..3] && NonPresets(r) == r[3..]
  {
    var r := MergedModels(models, modelsPath, sep, freshIds);
    MergedShape(models, modelsPath, sep, freshIds);
    assert r == r[..3] + r[3..];
    NonPresetsAppend(r[..3], r[3..]);
    NonPresetsOfUserModels(r[3..]);
    NonPresetsOfPresets(r[..3]);
    PresetsAppend(r[..3], r[3..]);
    PresetsOfUserModels(r[3..]);
    PresetsOfPresets(r[..3]);
  }

  lemma {:induction false} PresetsOfPresets(models: seq<Model>)
    requires forall k :: 0 <= k < |models| ==> models[k].isPreset
    ensures Presets(models) == models
  {
    if models != [] {
      PresetsOfPresets(models[1..]);
      assert [models[0]] + models[1..] == models;
    }
  }

  lemma {:induction false} NonPresetsOfPresets(models: seq<Model>)
    requires forall k :: 0 <= k < |models| ==> models[k].isPreset
    ensures NonPresets(models) == []
  {
    if models != [] {
      NonPresetsOfPresets(models[1..]);
    }
  }

  lemma {:induction false} PresetsAppend(a: seq<Model>, b: seq<Model>)
    ensures Presets(a + b) == Presets(a) + Presets(b)
  {
    if a == [] {
      assert a + b == b;
    } else {
      assert (a + b)[1..] == a[1..] + b;
      PresetsAppend(a[1..], b);
    }
  }

  lemma {:induction false} PresetsOfUserModels(models: seq<Model>)
    requires forall k :: 0 <= k < |models| ==> !models[k].isPreset
    ensures Presets(models) == []
  {
    if models != [] {
      PresetsOfUserModels(models[1..]);
    }
  }

  /**
   * The current model keeps its id when some model of the new list has it;
   * otherwise it becomes the standard preset at the head of the list.
   */
  lemma CurrentSelection(models: seq<Model>, current: Option<Model>)
    requires models != []
    ensures current.Some? && (exists m :: m in models && m.id == current.value.id) ==>
      SelectCurrent(models, current) in models && SelectCurrent(models, current).id == current.value.id
    ensures current.None? || (forall m :: m in models ==> m.id != current.value.id) ==>
      SelectCurrent(models, current) == models[0]
  {
  }
}
