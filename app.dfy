/** The page's state and its handlers: the brand registry and selection, the
    request draft, the loading flag and the generated content. The effect
    that copies the selected brand's defaults into the draft is modelled as
    a step run at the end of every handler that changes the selection or
    the registry, and only then, as the page's framework re-runs it only
    when one of the two has changed. */
module AppState {
  import opened Types
  import opened Catalog
  import opened GeminiService

  /** The draft the page starts with. */
  const InitialRequest := ContentRequest(
    Copywriting, "", "", Known(Aida), Known(Promotional), Known(EN), Professional, "", None)

  /** A selected id selects a brand only when it is present and non-empty. */
  predicate Truthy(sel: Option<string>)
  {
    sel.Some? && sel.value != ""
  }

  /** The first brand with the id, if any. */
  function FindBrand(brands: seq<BrandProfile>, id: string): (r: Option<BrandProfile>)
    ensures r.Some? ==> r.value in brands && r.value.id == id
    ensures r.None? <==> forall k :: 0 <= k < |brands| ==> brands[k].id != id
  {
    if brands == [] then None
    else if brands[0].id == id then Some(brands[0])
    else FindBrand(brands[1..], id)
  }

  /** The registry without every brand of the id, the others in their
      order. */
  function WithoutBrand(brands: seq<BrandProfile>, id: string): (r: seq<BrandProfile>)
    ensures |r| <= |brands|
    ensures forall k :: 0 <= k < |r| ==> r[k].id != id
  {
    if brands == [] then []
    else (if brands[0].id == id then [] else [brands[0]]) + WithoutBrand(brands[1..], id)
  }

  /** The framework is one of the current mode's. */
  predicate FrameworkFitsMode(form: ContentRequest)
  {
    form.framework.Known? && form.framework.member in ModeFrameworks(form.mode)
  }

  /** The draft agrees with the selection: a selected brand that is found
      is attached with its tone and audience, and with no selection no
      brand is attached. */
  predicate BrandSynced(form: ContentRequest, brands: seq<BrandProfile>, sel: Option<string>)
  {
    (Truthy(sel) && FindBrand(brands, sel.value).Some? ==>
      var b := FindBrand(brands, sel.value).value;
      form.brand == Some(b) && form.tone == b.defaultTone && form.targetAudience == b.defaultAudience)
    && (!Truthy(sel) ==> form.brand == None)
  }

  /** The draft after the brand effect has run. */
  function Synced(form: ContentRequest, brands: seq<BrandProfile>, sel: Option<string>): ContentRequest
  {
    if Truthy(sel) then
      match FindBrand(brands, sel.value)
      case Some(b) => form.(tone := b.defaultTone, targetAudience := b.defaultAudience, brand := Some(b))
      case None => form
    else
      form.(brand := None)
  }

  /** The draft after a mode switch. */
  function WithMode(form: ContentRequest, m: AppMode): ContentRequest
  {
    form.(mode := m, framework := Known(ModeFrameworks(m)[0]))
  }

  /** The draft after Clear. */
  function Cleared(form: ContentRequest, sel: Option<string>): ContentRequest
  {
    form.(topic := "", description := "", targetAudience := if Truthy(sel) then form.targetAudience else "")
  }

  class App {
    var brands: seq<BrandProfile>
    var selectedBrandId: Option<string>
    var formData: ContentRequest
    var loading: bool
    var generatedContent: Option<string>

    ghost predicate Valid()
      reads this
    {
      FrameworkFitsMode(formData)
      && (loading ==> generatedContent == None)
      && BrandSynced(formData, brands, selectedBrandId)
    }

    constructor()
      ensures Valid()
      ensures brands == DefaultBrands && selectedBrandId == None
      ensures formData == InitialRequest
      ensures !loading && generatedContent == None
    {
      brands := DefaultBrands;
      selectedBrandId := None;
      formData := InitialRequest;
      loading := false;
      generatedContent := None;
    }

    /** The brand effect. */
    method SyncBrandDefaults()
      modifies this
      ensures formData == Synced(old(formData), brands, selectedBrandId)
      ensures brands == old(brands) && selectedBrandId == old(selectedBrandId)
      ensures loading == old(loading) && generatedContent == old(generatedContent)
    {
      if Truthy(selectedBrandId) {
        var found := FindBrand(brands, selectedBrandId.value);
        if found.Some? {
          var b := found.value;
          formData := formData.(tone := b.defaultTone, targetAudience := b.defaultAudience, brand := Some(b));
        }
      } else {
        formData := formData.(brand := None);
      }
    }

    method ModeChange(m: AppMode)
      requires Valid()
      modifies this
      ensures Valid()
      ensures formData == WithMode(old(formData), m)
      ensures brands == old(brands) && selectedBrandId == old(selectedBrandId)
      ensures loading == old(loading) && generatedContent == old(generatedContent)
    {
      var fw := if m == Scriptwriting then ScriptFrameworks[0] else CopyFrameworks[0];
      formData := formData.(mode := m, framework := Known(fw));
    }

    /** Appends the brand, selects it, and lets the effect run. */
    method AddBrand(b: BrandProfile)
      requires Valid()
      modifies this
      ensures Valid()
      ensures brands == old(brands) + [b] && selectedBrandId == Some(b.id)
      ensures formData == Synced(old(formData), brands, selectedBrandId)
      ensures loading == old(loading) && generatedContent == old(generatedContent)
    {
      brands := brands + [b];
      selectedBrandId := Some(b.id);
      SyncBrandDefaults();
      SyncedIsSynced(old(formData), brands, selectedBrandId);
    }

    /** Removes every brand of the id, drops the selection if it was that
      id, and lets the effect run. */
    method DeleteBrand(id: string)
      requires Valid()
      modifies this
      ensures Valid()
      ensures brands == WithoutBrand(old(brands), id)
      ensures selectedBrandId == if old(selectedBrandId) == Some(id) then None else old(selectedBrandId)
      ensures formData == Synced(old(formData), brands, selectedBrandId)
      ensures loading == old(loading) && generatedContent == old(generatedContent)
    {
      brands := WithoutBrand(brands, id);
      if selectedBrandId == Some(id) {
        selectedBrandId := None;
      }
      SyncBrandDefaults();
      SyncedIsSynced(old(formData), brands, selectedBrandId);
    }

    /** The brand picker's selection; selecting what is already selected
      changes nothing, so the effect does not run. */
    method SelectBrand(sel: Option<string>)
      requires Valid()
      modifies this
      ensures Valid()
      ensures selectedBrandId == sel && brands == old(brands)
      ensures formData == if sel == old(selectedBrandId) then old(formData) else Synced(old(formData), brands, sel)
      ensures loading == old(loading) && generatedContent == old(generatedContent)
    {
      if sel != selectedBrandId {
        selectedBrandId := sel;
        SyncBrandDefaults();
        SyncedIsSynced(old(formData), brands, selectedBrandId);
      }
    }

    /** The first half of Generate: raises the loading flag, drops the last
      content and hands out the draft to send. */
    method StartGenerate() returns (request: ContentRequest)
      requires Valid()
      modifies this
      ensures Valid()
      ensures request == formData
      ensures loading && generatedContent == None
      ensures formData == old(formData) && brands == old(brands) && selectedBrandId == old(selectedBrandId)
    {
      loading := true;
      generatedContent := None;
      request := formData;
    }

    /** The second half of Generate, given what the client returned: a
      success becomes the content, a failure leaves it as it was; the
      loading flag drops either way. */
    method FinishGenerate(outcome: Result<string, GenerationError>)
      requires Valid()
      modifies this
      ensures Valid()
      ensures !loading
      ensures outcome.Success? ==> generatedContent == Some(outcome.value)
      ensures outcome.Failure? ==> generatedContent == old(generatedContent)
      ensures old(loading) && outcome.Failure? ==> generatedContent == None
      ensures formData == old(formData) && brands == old(brands) && selectedBrandId == old(selectedBrandId)
    {
      if outcome.Success? {
        generatedContent := Some(outcome.value);
      }
      loading := false;
    }

    method Clear()
      requires Valid()
      modifies this
      ensures Valid()
      ensures generatedContent == None
      ensures formData == Cleared(old(formData), selectedBrandId)
      ensures brands == old(brands) && selectedBrandId == old(selectedBrandId) && loading == old(loading)
    {
      generatedContent := None;
      formData := formData.(topic := "", description := "",
        targetAudience := if Truthy(selectedBrandId) then formData.targetAudience else "");
      ClearedKeepsInvariants(old(formData), brands, selectedBrandId);
    }
  }

  // ---- properties ----

  /** The start state meets the invariants. */
  lemma InitialStateValid()
    ensures FrameworkFitsMode(InitialRequest)
    ensures BrandSynced(InitialRequest, DefaultBrands, None)
  {
  }

  /** FindBrand finds the first brand of the id. */
  lemma {:induction false} FindBrandFirst(brands: seq<BrandProfile>, id: string, i: nat)
    requires i < |brands| && brands[i].id == id
    requires forall j :: 0 <= j < i ==> brands[j].id != id
    ensures FindBrand(brands, id) == Some(brands[i])
    decreases i
  {
    if i > 0 {
      FindBrandFirst(brands[1..], id, i - 1);
    }
  }

  /** Appending a brand changes a lookup only when the id was absent
      before and is the new brand's. */
  lemma {:induction false} FindBrandAppend(brands: seq<BrandProfile>, b: BrandProfile, id: string)
    ensures FindBrand(brands + [b], id) ==
      if FindBrand(brands, id).Some? then FindBrand(brands, id)
      else if b.id == id then Some(b) else None
    decreases |brands|
  {
    if brands != [] {
      assert (brands + [b])[1..] == brands[1..] + [b];
      FindBrandAppend(brands[1..], b, id);
    }
  }

  /** Deleting one id leaves the lookup of every other id as it was. */
  lemma {:induction false} FindAfterDelete(brands: seq<BrandProfile>, id: string, other: string)
    requires other != id
    ensures FindBrand(WithoutBrand(brands, id), other) == FindBrand(brands, other)
    decreases |brands|
  {
    if brands != [] {
      FindAfterDelete(brands[1..], id, other);
      var rest := WithoutBrand(brands[1..], id);
      if brands[0].id != id {
        assert WithoutBrand(brands, id) == [brands[0]] + rest;
        assert ([brands[0]] + rest)[1..] == rest;
      } else {
        assert WithoutBrand(brands, id) == rest;
      }
    }
  }

  /** The kept brands are exactly those of another id. */
  lemma {:induction false} WithoutBrandMembers(brands: seq<BrandProfile>, id: string, b: BrandProfile)
    ensures b in WithoutBrand(brands, id) <==> b in brands && b.id != id
    decreases |brands|
  {
    if brands != [] {
      WithoutBrandMembers(brands[1..], id, b);
      assert brands == [brands[0]] + brands[1..];
    }
  }

  /** Deleting distributes over concatenation, so the kept brands stay in
      their order. */
  lemma {:induction false} WithoutBrandAppend(a: seq<BrandProfile>, b: seq<BrandProfile>, id: string)
    ensures WithoutBrand(a + b, id) == WithoutBrand(a, id) + WithoutBrand(b, id)
    decreases |a|
  {
    if a == [] {
      assert a + b == b;
    } else {
      var head := if a[0].id == id then [] else [a[0]];
      var ab := a + b;
      assert ab[0] == a[0] && ab[1..] == a[1..] + b;
      WithoutBrandAppend(a[1..], b, id);
      assert WithoutBrand(ab, id) == head + WithoutBrand(a[1..] + b, id);
      assert WithoutBrand(a, id) == head + WithoutBrand(a[1..], id);
    }
  }

  /** Deleting an id no brand has changes nothing. */
  lemma {:induction false} WithoutAbsentBrand(brands: seq<BrandProfile>, id: string)
    requires forall k :: 0 <= k < |brands| ==> brands[k].id != id
    ensures WithoutBrand(brands, id) == brands
    decreases |brands|
  {
    if brands != [] {
      WithoutAbsentBrand(brands[1..], id);
      assert [brands[0]] + brands[1..] == brands;
    }
  }

  /** Adding a brand with a fresh id and deleting it again restores the
      registry. */
  lemma DeleteAfterAddRestores(brands: seq<BrandProfile>, b: BrandProfile)
    requires forall k :: 0 <= k < |brands| ==> brands[k].id != b.id
    ensures WithoutBrand(brands + [b], b.id) == brands
  {
    WithoutBrandAppend(brands, [b], b.id);
    WithoutAbsentBrand(brands, b.id);
    assert WithoutBrand([b], b.id) == [];
  }

  /** After the effect the draft agrees with the selection, and a draft is
      left unchanged by the effect exactly when it already agrees. */
  lemma SyncedIsSynced(form: ContentRequest, brands: seq<BrandProfile>, sel: Option<string>)
    ensures BrandSynced(Synced(form, brands, sel), brands, sel)
    ensures Synced(form, brands, sel) == form <==> BrandSynced(form, brands, sel)
    ensures Synced(Synced(form, brands, sel), brands, sel) == Synced(form, brands, sel)
    ensures FrameworkFitsMode(Synced(form, brands, sel)) == FrameworkFitsMode(form)
  {
  }

  /** A selected brand that is found sets tone, audience and brand, and
      nothing else. */
  lemma SyncFound(form: ContentRequest, brands: seq<BrandProfile>, sel: Option<string>, i: nat)
    requires Truthy(sel) && i < |brands| && brands[i].id == sel.value
    requires forall j :: 0 <= j < i ==> brands[j].id != sel.value
    ensures var r := Synced(form, brands, sel);
      r.tone == brands[i].defaultTone && r.targetAudience == brands[i].defaultAudience
      && r.brand == Some(brands[i])
      && r.(tone := form.tone, targetAudience := form.targetAudience, brand := form.brand) == form
  {
    FindBrandFirst(brands, sel.value, i);
  }

  /** A selected id that no brand has leaves the draft as it was. */
  lemma SyncAbsent(form: ContentRequest, brands: seq<BrandProfile>, sel: Option<string>)
    requires Truthy(sel) && forall k :: 0 <= k < |brands| ==> brands[k].id != sel.value
    ensures Synced(form, brands, sel) == form
  {
  }

  /** With no selection only the brand is detached; tone and audience keep
      their values. */
  lemma SyncDeselected(form: ContentRequest, brands: seq<BrandProfile>, sel: Option<string>)
    requires !Truthy(sel)
    ensures Synced(form, brands, sel).brand == None
    ensures Synced(form, brands, sel).(brand := form.brand) == form
  {
  }

  /** Adding a brand with a fresh, non-empty id applies its defaults. */
  lemma AddBrandApplies(form: ContentRequest, brands: seq<BrandProfile>, b: BrandProfile)
    requires b.id != "" && forall k :: 0 <= k < |brands| ==> brands[k].id != b.id
    ensures var r := Synced(form, brands + [b], Some(b.id));
      r.tone == b.defaultTone && r.targetAudience == b.defaultAudience && r.brand == Some(b)
  {
    FindBrandAppend(brands, b, b.id);
  }

  /** Deleting a brand other than the selected one re-applies the same
      defaults as before. */
  lemma DeleteOtherResyncs(form: ContentRequest, brands: seq<BrandProfile>, sel: Option<string>, id: string)
    requires sel != Some(id)
    ensures Synced(form, WithoutBrand(brands, id), sel) == Synced(form, brands, sel)
  {
    if Truthy(sel) {
      FindAfterDelete(brands, id, sel.value);
    }
  }

  /** A mode switch puts the framework in the new mode's list and changes
      nothing but mode and framework; starting from a draft whose framework
      fits, the invariant is kept. */
  lemma ModeChangeFits(form: ContentRequest, m: AppMode)
    ensures FrameworkFitsMode(WithMode(form, m))
    ensures WithMode(form, m).mode == m
    ensures WithMode(form, m).framework == Known(if m == Scriptwriting then HookValueCta else Aida)
    ensures WithMode(form, m).(mode := form.mode, framework := form.framework) == form
  {
  }

  /** Clear empties topic and details, keeps the audience exactly when a
      brand is selected, changes nothing else, and keeps the invariants. */
  lemma ClearedKeepsInvariants(form: ContentRequest, brands: seq<BrandProfile>, sel: Option<string>)
    ensures Cleared(form, sel).topic == "" && Cleared(form, sel).description == ""
    ensures Truthy(sel) ==> Cleared(form, sel).targetAudience == form.targetAudience
    ensures !Truthy(sel) ==> Cleared(form, sel).targetAudience == ""
    ensures Cleared(form, sel).(topic := form.topic, description := form.description,
                                targetAudience := form.targetAudience) == form
    ensures BrandSynced(form, brands, sel) ==> BrandSynced(Cleared(form, sel), brands, sel)
    ensures FrameworkFitsMode(Cleared(form, sel)) == FrameworkFitsMode(form)
    ensures Cleared(Cleared(form, sel), sel) == Cleared(form, sel)
  {
  }
}
