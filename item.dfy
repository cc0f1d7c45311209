/**
 * A loot item: a prefab and an inventory sprite, a drop weight, and the two
 * resource paths under which the prefab and the sprite are stored.  Saving
 * derives the paths from the asset database; loading resolves them through
 * the resource loader.  Both engine services are parameters here.
 */
module ItemAssets {
  import opened Engine

  /** The directory prefix that `Resources.Load` does not want. */
  const ResourcesRoot: string := "Assets/Resources/"

  predicate OccursAt(s: string, pat: string, i: nat) {
    i + |pat| <= |s| && s[i..i + |pat|] == pat
  }

  /** `s.Contains(pat)`, scanning start positions left to right. */
  predicate Contains(s: string, pat: string)
    decreases |s|
  {
    |pat| <= |s| && (s[..|pat|] == pat || (|s| > 0 && Contains(s[1..], pat)))
  }

  lemma ShiftedOccurrence(s: string, pat: string, i: nat)
    requires |s| > 0
    ensures OccursAt(s[1..], pat, i) <==> OccursAt(s, pat, i + 1)
  {
    if i + 1 + |pat| <= |s| {
      assert s[1..][i..i + |pat|] == s[i + 1..i + 1 + |pat|];
    }
  }

  /** The scan finds the pattern exactly when it occurs at some position. */
  lemma {:induction false} ContainsIffOccurs(s: string, pat: string)
    ensures Contains(s, pat) <==> exists i: nat :: OccursAt(s, pat, i)
    decreases |s|
  {
    if |pat| > |s| {
    } else if s[..|pat|] == pat {
      assert OccursAt(s, pat, 0);
    } else {
      assert |s| > 0;
      ContainsIffOccurs(s[1..], pat);
      if Contains(s[1..], pat) {
        var i: nat :| OccursAt(s[1..], pat, i);
        ShiftedOccurrence(s, pat, i);
      } else {
        forall i: nat | OccursAt(s, pat, i)
          ensures false
        {
          assert i != 0;
          ShiftedOccurrence(s, pat, i - 1);
        }
      }
    }
  }

  /** `s.Replace(pat, null)`: every non-overlapping occurrence, scanning left to right, is deleted. */
  function RemoveAll(s: string, pat: string): (r: string)
    requires pat != []
    ensures |r| <= |s|
    decreases |s|
  {
    if |s| < |pat| then s
    else if s[..|pat|] == pat then RemoveAll(s[|pat|..], pat)
    else [s[0]] + RemoveAll(s[1..], pat)
  }

  /** Without an occurrence, replacing changes nothing. */
  lemma {:induction false} RemoveAllWithoutOccurrence(s: string, pat: string)
    requires pat != [] && !Contains(s, pat)
    ensures RemoveAll(s, pat) == s
    decreases |s|
  {
    if |s| >= |pat| {
      RemoveAllWithoutOccurrence(s[1..], pat);
      assert s == [s[0]] + s[1..];
    }
  }

  /** With an occurrence, replacing makes the path strictly shorter. */
  lemma {:induction false} RemoveAllWithOccurrence(s: string, pat: string, i: nat)
    requires pat != [] && OccursAt(s, pat, i)
    ensures |RemoveAll(s, pat)| < |s|
    decreases |s|
  {
    if s[..|pat|] != pat {
      assert i != 0;
      ShiftedOccurrence(s, pat, i - 1);
      RemoveAllWithOccurrence(s[1..], pat, i - 1);
    }
  }

  /** Replacing leaves a path unchanged exactly when the pattern does not occur in it. */
  lemma RemoveAllIsIdentityIff(s: string, pat: string)
    requires pat != []
    ensures RemoveAll(s, pat) == s <==> !Contains(s, pat)
  {
    ContainsIffOccurs(s, pat);
    if Contains(s, pat) {
      var i: nat :| OccursAt(s, pat, i);
      RemoveAllWithOccurrence(s, pat, i);
    } else {
      RemoveAllWithoutOccurrence(s, pat);
    }
  }

  /** The directory separators `Path.ChangeExtension` stops at. */
  predicate IsSeparator(c: char) {
    c == '/' || c == '\\'
  }

  /** Where the final path segment begins: just after the last separator. */
  function SegmentStart(p: string): (k: nat)
    ensures k <= |p|
  {
    if p == [] then 0
    else if IsSeparator(p[|p| - 1]) then |p|
    else SegmentStart(p[..|p| - 1])
  }

  /** The final segment holds no separator, and the one before it ends with one. */
  lemma {:induction false} SegmentStartSpec(p: string)
    ensures forall j :: SegmentStart(p) <= j < |p| ==> !IsSeparator(p[j])
    ensures SegmentStart(p) > 0 ==> IsSeparator(p[SegmentStart(p) - 1])
  {
    if p != [] && !IsSeparator(p[|p| - 1]) {
      SegmentStartSpec(p[..|p| - 1]);
    }
  }

  function FinalSegment(p: string): string {
    p[SegmentStart(p)..]
  }

  /** The position of the last '.' of the final segment, if it has one. */
  function ExtensionStart(p: string): (r: Option<nat>)
    ensures r.Some? ==> r.value < |p|
  {
    if p == [] then None
    else if p[|p| - 1] == '.' then Some(|p| - 1)
    else if IsSeparator(p[|p| - 1]) then None
    else ExtensionStart(p[..|p| - 1])
  }

  lemma {:induction false} ExtensionStartSpec(p: string)
    ensures var r := ExtensionStart(p);
            && (r.Some? ==> SegmentStart(p) <= r.value && p[r.value] == '.' && '.' !in p[r.value + 1..])
            && (r.None? ==> '.' !in FinalSegment(p))
  {
    if p != [] && p[|p| - 1] != '.' && !IsSeparator(p[|p| - 1]) {
      var q := p[..|p| - 1];
      ExtensionStartSpec(q);
      var r := ExtensionStart(q);
      assert p[SegmentStart(p)..] == q[SegmentStart(q)..] + [p[|p| - 1]];
      if r.Some? {
        assert p[r.value + 1..] == q[r.value + 1..] + [p[|p| - 1]];
      }
    }
  }

  /** `Path.ChangeExtension(p, null)`. */
  function StripExtension(p: string): string {
    match ExtensionStart(p)
    case None => p
    case Some(k) => p[..k]
  }

  /**
   * Stripping keeps a prefix of the path: all of it when the final segment
   * has no '.', and otherwise everything before the last '.' of the final
   * segment.
   */
  lemma StripExtensionSpec(p: string)
    ensures var r := StripExtension(p);
            && |r| <= |p| && r == p[..|r|]
            && ('.' !in FinalSegment(p) ==> r == p)
            && ('.' in FinalSegment(p) ==> SegmentStart(p) <= |r| < |p| && p[|r|] == '.' && '.' !in p[|r| + 1..])
  {
    ExtensionStartSpec(p);
    match ExtensionStart(p)
    case None =>
    case Some(k) =>
      assert p[k] in FinalSegment(p);
  }

  /** The path `SetSavedProperties` stores for an asset at `assetPath`. */
  function ResourcePath(assetPath: string): string {
    StripExtension(if Contains(assetPath, ResourcesRoot) then RemoveAll(assetPath, ResourcesRoot) else assetPath)
  }

  /** The `Contains` test before `Replace` never changes the stored path. */
  lemma ContainsGuardIsRedundant(assetPath: string)
    ensures ResourcePath(assetPath) == StripExtension(RemoveAll(assetPath, ResourcesRoot))
  {
    if !Contains(assetPath, ResourcesRoot) {
      RemoveAllWithoutOccurrence(assetPath, ResourcesRoot);
    }
  }

  /** The prefix is deleted from a path under the resources folder. */
  lemma StripsResourcesRoot()
    ensures RemoveAll("Assets/Resources/Items/Sword.prefab", ResourcesRoot) == "Items/Sword.prefab"
  {
    var p := "Assets/Resources/Items/Sword.prefab";
    var q := "Items/Sword.prefab";
    assert p[..|ResourcesRoot|] == ResourcesRoot;
    assert p[|ResourcesRoot|..] == q;
    assert !Contains(q, ResourcesRoot) by {
      assert q[..|ResourcesRoot|][0] != 'A';
      assert q[1..][..|ResourcesRoot|][0] != 'A';
    }
    RemoveAllWithoutOccurrence(q, ResourcesRoot);
  }

  /** The extension of the final segment is dropped, and nothing else. */
  lemma StripsPrefabExtension()
    ensures StripExtension("Items/Sword.prefab") == "Items/Sword"
  {
    assert ExtensionStart("Items/Sword.prefab") == ExtensionStart("Items/Sword.prefa") by {
      assert "Items/Sword.prefab"[..17] == "Items/Sword.prefa";
    }
    assert ExtensionStart("Items/Sword.prefa") == ExtensionStart("Items/Sword.pref") by {
      assert "Items/Sword.prefa"[..16] == "Items/Sword.pref";
    }
    assert ExtensionStart("Items/Sword.pref") == ExtensionStart("Items/Sword.pre") by {
      assert "Items/Sword.pref"[..15] == "Items/Sword.pre";
    }
    assert ExtensionStart("Items/Sword.pre") == ExtensionStart("Items/Sword.pr") by {
      assert "Items/Sword.pre"[..14] == "Items/Sword.pr";
    }
    assert ExtensionStart("Items/Sword.pr") == ExtensionStart("Items/Sword.p") by {
      assert "Items/Sword.pr"[..13] == "Items/Sword.p";
    }
    assert ExtensionStart("Items/Sword.p") == ExtensionStart("Items/Sword.") by {
      assert "Items/Sword.p"[..12] == "Items/Sword.";
    }
    assert "Items/Sword.prefab"[..11] == "Items/Sword";
  }

  /** A prefab under the resources folder is stored by its folder-relative name without extension. */
  lemma ResourcePathExample()
    ensures ResourcePath("Assets/Resources/Items/Sword.prefab") == "Items/Sword"
  {
    assert OccursAt("Assets/Resources/Items/Sword.prefab", ResourcesRoot, 0);
    StripsResourcesRoot();
    StripsPrefabExtension();
  }

  datatype ItemState = ItemState(
    model: Option<AssetId>,
    sprite: Option<AssetId>,
    dropRate: real,
    modelPath: string,
    spritePath: string)

  /** The state after `SetSavedProperties`; `assetPath` plays `AssetDatabase.GetAssetPath`. */
  function Saved(s: ItemState, assetPath: Option<AssetId> -> string): ItemState {
    s.(modelPath := ResourcePath(assetPath(s.model)), spritePath := ResourcePath(assetPath(s.sprite)))
  }

  /** Saving twice is saving once: the paths are derived from the assets, which saving leaves alone. */
  lemma SavedIsIdempotent(s: ItemState, assetPath: Option<AssetId> -> string)
    ensures Saved(Saved(s, assetPath), assetPath) == Saved(s, assetPath)
  {
  }

  datatype LoadResult = LoadResult(state: ItemState, ok: bool)

  /** The state and result of `InitializeItem`; the two loaders play `Resources.Load`. */
  function Initialized(s: ItemState, loadModel: string -> Option<AssetId>, loadSprite: string -> Option<AssetId>)
    : (r: LoadResult)
    ensures r.state.modelPath == s.modelPath && r.state.spritePath == s.spritePath && r.state.dropRate == s.dropRate
    ensures s.modelPath == "" ==> r == LoadResult(s, false)
    ensures s.modelPath != "" ==> r.state.model == loadModel(s.modelPath)
    ensures s.modelPath != "" && loadModel(s.modelPath).None? ==> !r.ok && r.state.sprite == s.sprite
    ensures r.ok <==>
      s.modelPath != "" && s.spritePath != "" && loadModel(s.modelPath).Some? && loadSprite(s.spritePath).Some?
    ensures r.ok ==> r.state.model.Some? && r.state.sprite.Some?
  {
    if s.modelPath == "" then LoadResult(s, false)
    else
      var s1 := s.(model := loadModel(s.modelPath));
      if s1.model.None? then LoadResult(s1, false)
      else if s.spritePath == "" then LoadResult(s1, false)
      else
        var s2 := s1.(sprite := loadSprite(s.spritePath));
        LoadResult(s2, s2.sprite.Some?)
  }

  /** Loading twice is loading once: the paths do not change, so the loaders answer alike. */
  lemma InitializedIsIdempotent(s: ItemState, loadModel: string -> Option<AssetId>, loadSprite: string -> Option<AssetId>)
    ensures Initialized(Initialized(s, loadModel, loadSprite).state, loadModel, loadSprite)
         == Initialized(s, loadModel, loadSprite)
  {
  }

  /**
   * Save then load: when the resource loader finds, under the saved names,
   * the assets the asset database named, the item loads successfully with
   * its original prefab, sprite and weight.
   */
  lemma SaveThenLoadRoundTrip(s: ItemState, assetPath: Option<AssetId> -> string,
                             loadModel: string -> Option<AssetId>, loadSprite: string -> Option<AssetId>)
    requires s.model.Some? && s.sprite.Some?
    requires ResourcePath(assetPath(s.model)) != "" && ResourcePath(assetPath(s.sprite)) != ""
    requires loadModel(ResourcePath(assetPath(s.model))) == s.model
    requires loadSprite(ResourcePath(assetPath(s.sprite))) == s.sprite
    ensures var r := Initialized(Saved(s, assetPath), loadModel, loadSprite);
            r.ok && r.state.model == s.model && r.state.sprite == s.sprite && r.state.dropRate == s.dropRate
  {
  }

  class Item {
    var model: Option<AssetId>       // m_itemGameObject
    var sprite: Option<AssetId>      // m_itemInventorySprite
    var dropRate: real               // m_itemDropRate
    var modelPath: string            // m_itemGameObjectPath
    var spritePath: string           // m_itemSpritePath

    function State(): ItemState
      reads this
    {
      ItemState(model, sprite, dropRate, modelPath, spritePath)
    }

    constructor ()
      ensures State() == ItemState(None, None, 0.0, "", "")
    {
      model, sprite, dropRate, modelPath, spritePath := None, None, 0.0, "", "";
    }

    /** Called by the editor when a table is saved: only the two path fields change. */
    method SetSavedProperties(assetPath: Option<AssetId> -> string)
      modifies this
      ensures State() == Saved(old(State()), assetPath)
    {
      modelPath := assetPath(model);
      if Contains(modelPath, ResourcesRoot) {
        modelPath := RemoveAll(modelPath, ResourcesRoot);
      }
      modelPath := StripExtension(modelPath);

      spritePath := assetPath(sprite);
      if Contains(spritePath, ResourcesRoot) {
        spritePath := RemoveAll(spritePath, ResourcesRoot);
      }
      spritePath := StripExtension(spritePath);
    }

    /** Resolves both paths, stopping at the first failure. */
    method InitializeItem(loadModel: string -> Option<AssetId>, loadSprite: string -> Option<AssetId>)
      returns (ok: bool)
      modifies this
      ensures LoadResult(State(), ok) == Initialized(old(State()), loadModel, loadSprite)
    {
      if modelPath == "" {
        return false;
      }
      model := loadModel(modelPath);
      if model.None? {
        return false;
      }
      if spritePath == "" {
        return false;
      }
      sprite := loadSprite(spritePath);
      if sprite.None? {
        return false;
      }
      return true;
    }
  }
}
