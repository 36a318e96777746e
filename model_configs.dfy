/**
 * The model configuration table of config/model_manager.py: the configured
 * model entries, filtered and sorted listings, lookup by id, the default
 * model, enabling and disabling, adding and removing entries, and the
 * configuration handed to the web frontend.
 *
 * Writing the configuration file is not modelled: each mutating operation
 * takes as a parameter the boolean save_config would return. When that is
 * false the in-memory change stays, as in the program.
 */
module ModelConfigs {
  import opened Wrappers
  import opened Text
  import opened Sorting

  /**
   * One element of `available_models` as stored in the configuration.
   * `enabled` and `priority` may be absent; the other keys are always present.
   */
  datatype ModelEntry = ModelEntry(
    id: string,
    name: string,
    description: string,
    category: string,
    contextWindow: int,
    recommendedUse: seq<string>,
    installCommand: string,
    enabled: Option<bool>,
    priority: Option<int>)

  /** the ModelConfig dataclass */
  datatype ModelConfig = ModelConfig(
    id: string,
    name: string,
    description: string,
    category: string,
    contextWindow: int,
    recommendedUse: seq<string>,
    installCommand: string,
    enabled: bool,
    priority: int)

  /** an entry of `categories` */
  datatype Category = Category(name: string, description: string)

  /** one model as listed by export_frontend_config */
  datatype FrontendModel = FrontendModel(
    id: string,
    name: string,
    description: string,
    category: string,
    installCommand: string)

  datatype FrontendConfig = FrontendConfig(
    availableModels: seq<FrontendModel>,
    defaultModel: string,
    categories: map<string, Category>)

  const FallbackDefaultModel: string := "llama3.2:3b"
  const DefaultSortBy: string := "priority"

  /** `model_data.get('enabled', True)` */
  predicate IsEnabled(e: ModelEntry) {
    e.enabled.GetOr(true)
  }

  /** `ModelConfig(**model_data)`: the dataclass defaults fill in what is absent */
  function ToConfig(e: ModelEntry): (c: ModelConfig)
    ensures c.id == e.id && c.name == e.name && c.category == e.category
    ensures c.description == e.description && c.contextWindow == e.contextWindow
    ensures c.recommendedUse == e.recommendedUse && c.installCommand == e.installCommand
    ensures c.enabled == IsEnabled(e)
    ensures c.priority == if e.priority.Some? then e.priority.value else 1
  {
    ModelConfig(e.id, e.name, e.description, e.category, e.contextWindow, e.recommendedUse,
      e.installCommand, e.enabled.GetOr(true), e.priority.GetOr(1))
  }

  /** the dictionary add_model stores: every key written out */
  function EntryOf(c: ModelConfig): ModelEntry {
    ModelEntry(c.id, c.name, c.description, c.category, c.contextWindow, c.recommendedUse,
      c.installCommand, Some(c.enabled), Some(c.priority))
  }

  /** Reading back a stored model gives the model that was added. */
  lemma EntryRoundTrip(c: ModelConfig)
    ensures ToConfig(EntryOf(c)) == c
  {
  }

  // ---------------------------------------------------------------------
  // Listing

  /** `any(model_data['id'] in available for available in available_in_ollama)` */
  function AnyContains(available: seq<string>, id: string): (b: bool)
    ensures b <==> exists i :: 0 <= i < |available| && Contains(available[i], id)
  {
    if available == [] then false
    else Contains(available[0], id) || AnyContains(available[1..], id)
  }

  /** the two skip conditions of get_available_models, negated */
  predicate Keep(e: ModelEntry, enabledOnly: bool, availableInOllama: Option<seq<string>>) {
    && (!enabledOnly || IsEnabled(e))
    && (availableInOllama.None? || AnyContains(availableInOllama.value, e.id))
  }

  /** the kept entries as ModelConfigs, in configuration order */
  function Selection(entries: seq<ModelEntry>, enabledOnly: bool, availableInOllama: Option<seq<string>>): (r: seq<ModelConfig>)
    ensures |r| <= |entries|
  {
    if entries == [] then []
    else
      var rest := Selection(entries[..|entries| - 1], enabledOnly, availableInOllama);
      var last := entries[|entries| - 1];
      if Keep(last, enabledOnly, availableInOllama) then rest + [ToConfig(last)] else rest
  }

  predicate PriorityLe(a: ModelConfig, b: ModelConfig) {
    a.priority <= b.priority
  }

  predicate NameLe(a: ModelConfig, b: ModelConfig) {
    StrLe(a.name, b.name)
  }

  /** the in-place stable sort at the end of get_available_models */
  function Arrange(sortBy: string, models: seq<ModelConfig>): seq<ModelConfig> {
    if sortBy == "priority" then SortBy(models, PriorityLe)
    else if sortBy == "name" then SortBy(models, NameLe)
    else models
  }

  /** every configured entry as a ModelConfig, in order */
  function Configs(entries: seq<ModelEntry>): (r: seq<ModelConfig>)
    ensures |r| == |entries| && forall i :: 0 <= i < |entries| ==> r[i] == ToConfig(entries[i])
  {
    seq(|entries|, i requires 0 <= i < |entries| => ToConfig(entries[i]))
  }

  /** The listing holds exactly the configured entries both filters keep, and nothing more often than configured. */
  lemma SelectionSpec(entries: seq<ModelEntry>, enabledOnly: bool, availableInOllama: Option<seq<string>>)
    ensures var r := Selection(entries, enabledOnly, availableInOllama);
      && (forall m :: m in r <==> exists i :: 0 <= i < |entries| && Keep(entries[i], enabledOnly, availableInOllama) && m == ToConfig(entries[i]))
      && multiset(r) <= multiset(Configs(entries))
  {
    SelectionMembers(entries, enabledOnly, availableInOllama);
    SelectionSubMultiset(entries, enabledOnly, availableInOllama);
  }

  lemma {:induction false} SelectionSubMultiset(entries: seq<ModelEntry>, enabledOnly: bool, availableInOllama: Option<seq<string>>)
    ensures multiset(Selection(entries, enabledOnly, availableInOllama)) <= multiset(Configs(entries))
    decreases |entries|
  {
    if entries != [] {
      var init := entries[..|entries| - 1];
      SelectionSubMultiset(init, enabledOnly, availableInOllama);
      assert Configs(entries) == Configs(init) + [ToConfig(entries[|entries| - 1])];
    }
  }

  lemma {:induction false} SelectionMembers(entries: seq<ModelEntry>, enabledOnly: bool, availableInOllama: Option<seq<string>>)
    ensures forall m :: m in Selection(entries, enabledOnly, availableInOllama) <==>
      exists i :: 0 <= i < |entries| && Keep(entries[i], enabledOnly, availableInOllama) && m == ToConfig(entries[i])
    decreases |entries|
  {
    if entries != [] {
      var init := entries[..|entries| - 1];
      var last := entries[|entries| - 1];
      SelectionMembers(init, enabledOnly, availableInOllama);
      var r := Selection(entries, enabledOnly, availableInOllama);
      var rInit := Selection(init, enabledOnly, availableInOllama);
      assert forall m :: m in r <==> m in rInit || (Keep(last, enabledOnly, availableInOllama) && m == ToConfig(last));
      forall m | m in r
        ensures exists i :: 0 <= i < |entries| && Keep(entries[i], enabledOnly, availableInOllama) && m == ToConfig(entries[i])
      {
        if m in rInit {
          var i :| 0 <= i < |init| && Keep(init[i], enabledOnly, availableInOllama) && m == ToConfig(init[i]);
          assert entries[i] == init[i];
        } else {
          assert entries[|entries| - 1] == last;
        }
      }
      forall i | 0 <= i < |entries| && Keep(entries[i], enabledOnly, availableInOllama)
        ensures ToConfig(entries[i]) in r
      {
        if i < |init| {
          assert init[i] == entries[i];
        }
      }
    }
  }

  /**
   * The filter of get_available_models: with `enabledOnly` an entry whose
   * `enabled` is false is dropped (an absent flag counts as enabled); with a
   * list of service model names, an entry is kept iff its id occurs in one
   * of them. Nothing is invented: the listing is a sub-multiset of the
   * configured entries.
   */
  lemma SelectionKeepsExactly(entries: seq<ModelEntry>, enabledOnly: bool, availableInOllama: Option<seq<string>>, i: nat)
    requires i < |entries|
    ensures ToConfig(entries[i]) in Selection(entries, enabledOnly, availableInOllama) <==>
      && (!enabledOnly || IsEnabled(entries[i]))
      && (availableInOllama.None? || exists j :: 0 <= j < |availableInOllama.value| && Contains(availableInOllama.value[j], entries[i].id))
    ensures forall m :: m in Selection(entries, enabledOnly, availableInOllama) ==>
      (!enabledOnly || m.enabled) && (availableInOllama.None? || AnyContains(availableInOllama.value, m.id))
  {
    SelectionSpec(entries, enabledOnly, availableInOllama);
    var r := Selection(entries, enabledOnly, availableInOllama);
    if ToConfig(entries[i]) in r {
      var j :| 0 <= j < |entries| && Keep(entries[j], enabledOnly, availableInOllama) && ToConfig(entries[i]) == ToConfig(entries[j]);
      assert entries[i].id == entries[j].id && IsEnabled(entries[i]) == IsEnabled(entries[j]);
    }
  }

  lemma NameLeTotal()
    ensures TotalPreorder(NameLe)
  {
    forall a, b
      ensures NameLe(a, b) || NameLe(b, a)
    {
      StrLeTotal(a.name, b.name);
    }
    forall a, b, c | NameLe(a, b) && NameLe(b, c)
      ensures NameLe(a, c)
    {
      StrLeTransitive(a.name, b.name, c.name);
    }
  }

  /**
   * The sort only rearranges, stably; "priority" orders by ascending
   * priority, "name" by name, anything else keeps configuration order.
   */
  lemma ArrangeSpec(sortBy: string, models: seq<ModelConfig>)
    ensures multiset(Arrange(sortBy, models)) == multiset(models)
    ensures sortBy == "priority" ==>
      && SortedBy(Arrange(sortBy, models), PriorityLe)
      && forall x :: Ties(Arrange(sortBy, models), PriorityLe, x) == Ties(models, PriorityLe, x)
    ensures sortBy == "name" ==>
      && SortedBy(Arrange(sortBy, models), NameLe)
      && forall x :: Ties(Arrange(sortBy, models), NameLe, x) == Ties(models, NameLe, x)
    ensures sortBy != "priority" && sortBy != "name" ==> Arrange(sortBy, models) == models
  {
    if sortBy == "priority" {
      SortByPermutation(models, PriorityLe);
      SortBySorted(models, PriorityLe);
      forall x
        ensures Ties(Arrange(sortBy, models), PriorityLe, x) == Ties(models, PriorityLe, x)
      {
        SortByStable(models, PriorityLe, x);
      }
    } else if sortBy == "name" {
      NameLeTotal();
      SortByPermutation(models, NameLe);
      SortBySorted(models, NameLe);
      forall x
        ensures Ties(Arrange(sortBy, models), NameLe, x) == Ties(models, NameLe, x)
      {
        SortByStable(models, NameLe, x);
      }
    }
  }

  // ---------------------------------------------------------------------
  // Lookup and removal by id

  /** the position of the first entry with the id, if any */
  function FirstIndex(entries: seq<ModelEntry>, id: string): (r: Option<nat>)
    ensures r.Some? ==>
      && r.value < |entries| && entries[r.value].id == id
      && forall j :: 0 <= j < r.value ==> entries[j].id != id
    ensures r.None? <==> forall j :: 0 <= j < |entries| ==> entries[j].id != id
  {
    if entries == [] then None
    else if entries[0].id == id then Some(0)
    else
      match FirstIndex(entries[1..], id)
      case None => None
      case Some(k) => Some(k + 1)
  }

  /** `[model for model in available_models if model['id'] != model_id]` */
  function RemoveAll(entries: seq<ModelEntry>, id: string): (r: seq<ModelEntry>)
    ensures |r| <= |entries|
  {
    if entries == [] then []
    else (if entries[0].id == id then [] else [entries[0]]) + RemoveAll(entries[1..], id)
  }

  /** Removal keeps exactly the entries with other ids, and shrinks the list iff the id was present. */
  lemma {:induction false} RemoveAllSpec(entries: seq<ModelEntry>, id: string)
    ensures forall e :: e in RemoveAll(entries, id) <==> e in entries && e.id != id
    ensures |RemoveAll(entries, id)| < |entries| <==> exists i :: 0 <= i < |entries| && entries[i].id == id
    decreases |entries|
  {
    if entries != [] {
      RemoveAllSpec(entries[1..], id);
      assert forall e :: e in entries <==> e == entries[0] || e in entries[1..];
      assert forall i :: 0 <= i < |entries[1..]| ==> entries[1..][i] == entries[i + 1];
    }
  }

  /** Removal by id works piecewise: what is kept keeps its relative order. */
  lemma {:induction false} RemoveAllConcat(a: seq<ModelEntry>, b: seq<ModelEntry>, id: string)
    ensures RemoveAll(a + b, id) == RemoveAll(a, id) + RemoveAll(b, id)
    decreases |a|
  {
    if a == [] {
      assert a + b == b;
    } else {
      var ab := a + b;
      var h: seq<ModelEntry> := if a[0].id == id then [] else [a[0]];
      assert ab[0] == a[0] && ab[1..] == a[1..] + b;
      calc {
        RemoveAll(ab, id);
        h + RemoveAll(a[1..] + b, id);
        { RemoveAllConcat(a[1..], b, id); }
        h + (RemoveAll(a[1..], id) + RemoveAll(b, id));
        (h + RemoveAll(a[1..], id)) + RemoveAll(b, id);
      }
    }
  }

  /** With no entry of that id, removal changes nothing. */
  lemma {:induction false} RemoveAllAbsent(entries: seq<ModelEntry>, id: string)
    requires forall i :: 0 <= i < |entries| ==> entries[i].id != id
    ensures RemoveAll(entries, id) == entries
    decreases |entries|
  {
    if entries != [] {
      RemoveAllAbsent(entries[1..], id);
      assert [entries[0]] + entries[1..] == entries;
    }
  }

  /** The models whose category is the given one, in order. */
  function InCategory(models: seq<ModelConfig>, category: string): (r: seq<ModelConfig>)
    ensures |r| <= |models|
    ensures forall m :: m in r <==> m in models && m.category == category
  {
    if models == [] then []
    else
      var rest := InCategory(models[1..], category);
      assert forall m :: m in models <==> m == models[0] || m in models[1..];
      if models[0].category == category then [models[0]] + rest else rest
  }

  function Frontend(m: ModelConfig): FrontendModel {
    FrontendModel(m.id, m.name, m.description, m.category, m.installCommand)
  }

  class ModelConfigManager {
    /** `_config_data['available_models']` */
    var entries: seq<ModelEntry>
    /** `_config_data['default_model']`, which may be absent */
    var defaultModel: Option<string>
    /** `_config_data['config']['sort_by']`, which may be absent */
    var sortBy: Option<string>
    /** `_config_data['categories']` */
    var categories: map<string, Category>

    /** a manager over already-loaded configuration data */
    constructor (entries: seq<ModelEntry>, defaultModel: Option<string>, sortBy: Option<string>, categories: map<string, Category>)
      ensures this.entries == entries && this.defaultModel == defaultModel
      ensures this.sortBy == sortBy && this.categories == categories
    {
      this.entries := entries;
      this.defaultModel := defaultModel;
      this.sortBy := sortBy;
      this.categories := categories;
    }

    /** what get_available_models returns */
    function Listing(enabledOnly: bool, availableInOllama: Option<seq<string>>): seq<ModelConfig>
      reads this
    {
      Arrange(sortBy.GetOr(DefaultSortBy), Selection(entries, enabledOnly, availableInOllama))
    }

    /** get_available_models: the kept entries, then the configured stable sort */
    method GetAvailableModels(enabledOnly: bool, availableInOllama: Option<seq<string>>) returns (models: seq<ModelConfig>)
      ensures models == Listing(enabledOnly, availableInOllama)
      ensures multiset(models) == multiset(Selection(entries, enabledOnly, availableInOllama))
    {
      models := [];
      for i := 0 to |entries|
        invariant models == Selection(entries[..i], enabledOnly, availableInOllama)
      {
        assert entries[..i + 1][..i] == entries[..i];
        var modelData := entries[i];
        if enabledOnly && !modelData.enabled.GetOr(true) {
          continue;
        }
        if availableInOllama.Some? && !AnyContains(availableInOllama.value, modelData.id) {
          continue;
        }
        models := models + [ToConfig(modelData)];
      }
      assert entries[..|entries|] == entries;
      var key := sortBy.GetOr(DefaultSortBy);
      if key == "priority" {
        models := SortBy(models, PriorityLe);
      } else if key == "name" {
        models := SortBy(models, NameLe);
      }
      ArrangeSpec(key, Selection(entries, enabledOnly, availableInOllama));
    }

    /** get_enabled_models */
    method GetEnabledModels() returns (models: seq<ModelConfig>)
      ensures models == Listing(true, None)
      ensures forall m :: m in models ==> m.enabled
      ensures forall i :: 0 <= i < |entries| && IsEnabled(entries[i]) ==> ToConfig(entries[i]) in models
    {
      models := GetAvailableModels(true, None);
      SelectionSpec(entries, true, None);
      forall m
        ensures m in models <==> m in Selection(entries, true, None)
      {
        assert m in models <==> m in multiset(models);
      }
    }

    /** get_model_by_id: the first entry with the id, enabled or not */
    method GetModelById(modelId: string) returns (r: Option<ModelConfig>)
      ensures FirstIndex(entries, modelId).None? ==> r == None
      ensures FirstIndex(entries, modelId).Some? ==> r == Some(ToConfig(entries[FirstIndex(entries, modelId).value]))
    {
      for i := 0 to |entries|
        invariant forall j :: 0 <= j < i ==> entries[j].id != modelId
      {
        if entries[i].id == modelId {
          return Some(ToConfig(entries[i]));
        }
      }
      return None;
    }

    /** get_models_by_category: the enabled models of that category, in listing order */
    method GetModelsByCategory(category: string) returns (models: seq<ModelConfig>)
      ensures models == InCategory(Listing(true, None), category)
      ensures forall m :: m in models <==> m in Listing(true, None) && m.category == category
    {
      var enabled := GetEnabledModels();
      models := InCategory(enabled, category);
    }

    /** get_default_model */
    function GetDefaultModel(): (id: string)
      reads this
      ensures defaultModel.Some? ==> id == defaultModel.value
      ensures defaultModel.None? ==> id == FallbackDefaultModel
    {
      defaultModel.GetOr(FallbackDefaultModel)
    }

    /** set_default_model: only an id in the table becomes the default */
    method SetDefaultModel(modelId: string, saved: bool) returns (ok: bool)
      modifies this
      ensures entries == old(entries) && sortBy == old(sortBy) && categories == old(categories)
      ensures FirstIndex(entries, modelId).None? ==> !ok && defaultModel == old(defaultModel)
      ensures FirstIndex(entries, modelId).Some? ==> ok == saved && defaultModel == Some(modelId)
    {
      var found := GetModelById(modelId);
      if found.Some? {
        defaultModel := Some(modelId);
        return saved;
      }
      return false;
    }

    /** _set_model_enabled: sets the flag on the first entry with the id only */
    method SetModelEnabled(modelId: string, enabled: bool, saved: bool) returns (ok: bool)
      modifies this
      ensures defaultModel == old(defaultModel) && sortBy == old(sortBy) && categories == old(categories)
      ensures FirstIndex(old(entries), modelId).None? ==> !ok && entries == old(entries)
      ensures FirstIndex(old(entries), modelId).Some? ==>
        var i := FirstIndex(old(entries), modelId).value;
        ok == saved && entries == old(entries)[i := old(entries)[i].(enabled := Some(enabled))]
    {
      for i := 0 to |entries|
        invariant entries == old(entries)
        invariant forall j :: 0 <= j < i ==> entries[j].id != modelId
      {
        if entries[i].id == modelId {
          entries := entries[i := entries[i].(enabled := Some(enabled))];
          return saved;
        }
      }
      return false;
    }

    /** enable_model */
    method EnableModel(modelId: string, saved: bool) returns (ok: bool)
      modifies this
      ensures defaultModel == old(defaultModel) && sortBy == old(sortBy) && categories == old(categories)
      ensures FirstIndex(old(entries), modelId).None? ==> !ok && entries == old(entries)
      ensures FirstIndex(old(entries), modelId).Some? ==>
        var i := FirstIndex(old(entries), modelId).value;
        ok == saved && entries == old(entries)[i := old(entries)[i].(enabled := Some(true))]
    {
      ok := SetModelEnabled(modelId, true, saved);
    }

    /** disable_model */
    method DisableModel(modelId: string, saved: bool) returns (ok: bool)
      modifies this
      ensures defaultModel == old(defaultModel) && sortBy == old(sortBy) && categories == old(categories)
      ensures FirstIndex(old(entries), modelId).None? ==> !ok && entries == old(entries)
      ensures FirstIndex(old(entries), modelId).Some? ==>
        var i := FirstIndex(old(entries), modelId).value;
        ok == saved && entries == old(entries)[i := old(entries)[i].(enabled := Some(false))]
    {
      ok := SetModelEnabled(modelId, false, saved);
    }

    /** add_model: a known id is refused; otherwise one entry goes at the end */
    method AddModel(config: ModelConfig, saved: bool) returns (ok: bool)
      modifies this
      ensures defaultModel == old(defaultModel) && sortBy == old(sortBy) && categories == old(categories)
      ensures FirstIndex(old(entries), config.id).Some? ==> !ok && entries == old(entries)
      ensures FirstIndex(old(entries), config.id).None? ==> ok == saved && entries == old(entries) + [EntryOf(config)]
    {
      var existing := GetModelById(config.id);
      if existing.Some? {
        return false;
      }
      entries := entries + [EntryOf(config)];
      return saved;
    }

    /** remove_model: every entry with the id goes; false, without saving, when there was none */
    method RemoveModel(modelId: string, saved: bool) returns (ok: bool)
      modifies this
      ensures defaultModel == old(defaultModel) && sortBy == old(sortBy) && categories == old(categories)
      ensures entries == RemoveAll(old(entries), modelId)
      ensures ok <==> saved && exists i :: 0 <= i < |old(entries)| && old(entries)[i].id == modelId
    {
      var originalLength := |entries|;
      RemoveAllSpec(entries, modelId);
      entries := RemoveAll(entries, modelId);
      if |entries| < originalLength {
        return saved;
      }
      return false;
    }

    /** get_categories */
    function GetCategories(): (r: map<string, Category>)
      reads this
      ensures r == categories
    {
      categories
    }

    /** export_frontend_config: the enabled models in listing order, the default model and the categories */
    method ExportFrontendConfig() returns (r: FrontendConfig)
      ensures |r.availableModels| == |Listing(true, None)|
      ensures forall i :: 0 <= i < |r.availableModels| ==> r.availableModels[i] == Frontend(Listing(true, None)[i])
      ensures r.defaultModel == GetDefaultModel() && r.categories == categories
    {
      var models := GetEnabledModels();
      var exported := seq(|models|, i requires 0 <= i < |models| => Frontend(models[i]));
      r := FrontendConfig(exported, GetDefaultModel(), GetCategories());
    }
  }

  /** After a successful add the new model is what lookup by its id finds. */
  lemma AddedModelIsFound(entries: seq<ModelEntry>, config: ModelConfig)
    requires FirstIndex(entries, config.id).None?
    ensures FirstIndex(entries + [EntryOf(config)], config.id) == Some(|entries|)
    ensures ToConfig((entries + [EntryOf(config)])[|entries|]) == config
  {
    var all := entries + [EntryOf(config)];
    assert all[|entries|].id == config.id;
    assert forall j :: 0 <= j < |entries| ==> all[j].id == entries[j].id;
  }

  /** After removal lookup by that id finds nothing. */
  lemma RemovedModelIsGone(entries: seq<ModelEntry>, id: string)
    ensures FirstIndex(RemoveAll(entries, id), id).None?
  {
    var r := RemoveAll(entries, id);
    RemoveAllSpec(entries, id);
    assert forall j :: 0 <= j < |r| ==> r[j] in r;
  }

  /**
   * After enabling or disabling, lookup by that id sees the new flag and every
   * other entry is as it was.
   */
  lemma SetEnabledIsSeen(entries: seq<ModelEntry>, id: string, enabled: bool)
    requires FirstIndex(entries, id).Some?
    ensures var i := FirstIndex(entries, id).value;
      var updated := entries[i := entries[i].(enabled := Some(enabled))];
      && FirstIndex(updated, id) == Some(i)
      && ToConfig(updated[i]).enabled == enabled
      && forall j :: 0 <= j < |entries| && j != i ==> updated[j] == entries[j]
  {
    var i := FirstIndex(entries, id).value;
    var updated := entries[i := entries[i].(enabled := Some(enabled))];
    assert updated[i].id == id;
    assert forall j :: 0 <= j < i ==> updated[j].id == entries[j].id;
  }
}
