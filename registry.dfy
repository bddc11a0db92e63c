/** The plugin registry: one plugin per system type, the last one
    registered for a type replacing any earlier one. */
module Registry {
  import opened Wrappers
  import Models
  import LlmPlugin
  import AgenticPlugin
  import MultiAgentPlugin
  import Plot4aiPlugin

  /** The four plugins `load_plugins` registers. */
  datatype Plugin = LlmApplications | AgenticSystems | MultiAgentSystems | Plot4aiCards
  {
    /** The plugin's `system_type` property. */
    function SystemType(): Models.SystemType {
      match this
      case LlmApplications => LlmPlugin.PluginSystemType
      case AgenticSystems => AgenticPlugin.PluginSystemType
      case MultiAgentSystems => MultiAgentPlugin.PluginSystemType
      case Plot4aiCards => Plot4aiPlugin.PluginSystemType
    }
  }

  /** The registrations of `load_plugins`, in order. */
  const LoadOrder: seq<Plugin> := [LlmApplications, AgenticSystems, MultiAgentSystems, Plot4aiCards]

  /** The map after registering `ps` in order on top of `m`. */
  function RegisterAll(m: map<Models.SystemType, Plugin>, ps: seq<Plugin>): map<Models.SystemType, Plugin>
    decreases |ps|
  {
    if |ps| == 0 then m
    else
      var k := |ps| - 1;
      RegisterAll(m, ps[..k])[ps[k].SystemType() := ps[k]]
  }

  /** Registering adds exactly the system types of the registered plugins. */
  lemma {:induction false} RegisterAllKeys(m: map<Models.SystemType, Plugin>, ps: seq<Plugin>)
    ensures RegisterAll(m, ps).Keys == m.Keys + set p | p in ps :: p.SystemType()
    decreases |ps|
  {
    if |ps| > 0 {
      var k := |ps| - 1;
      RegisterAllKeys(m, ps[..k]);
      assert forall p :: p in ps <==> p in ps[..k] || p == ps[k];
    }
  }

  /** After a run of registrations a system type maps to the last plugin
      registered for it. */
  lemma {:induction false} LastRegisteredWins(m: map<Models.SystemType, Plugin>, ps: seq<Plugin>, j: nat)
    requires j < |ps|
    requires forall l :: j < l < |ps| ==> ps[l].SystemType() != ps[j].SystemType()
    ensures ps[j].SystemType() in RegisterAll(m, ps)
    ensures RegisterAll(m, ps)[ps[j].SystemType()] == ps[j]
    decreases |ps|
  {
    var k := |ps| - 1;
    if j < k {
      var init := ps[..k];
      assert init[j] == ps[j];
      forall l | j < l < |init| ensures init[l].SystemType() != init[j].SystemType() {
        assert init[l] == ps[l];
      }
      LastRegisteredWins(m, init, j);
    }
  }

  /** A system type no registered plugin reports keeps its earlier entry,
      or stays absent. */
  lemma {:induction false} OthersUnchanged(m: map<Models.SystemType, Plugin>, ps: seq<Plugin>, t: Models.SystemType)
    requires forall j :: 0 <= j < |ps| ==> ps[j].SystemType() != t
    ensures t in RegisterAll(m, ps) <==> t in m
    ensures t in m ==> RegisterAll(m, ps)[t] == m[t]
    decreases |ps|
  {
    if |ps| > 0 {
      var init := ps[..|ps| - 1];
      forall j | 0 <= j < |init| ensures init[j].SystemType() != t {
        assert init[j] == ps[j];
      }
      OthersUnchanged(m, init, t);
    }
  }

  /** After `load_plugins` on an empty registry, LLM applications are
      served by the PLOT4AI plugin, which is registered last and reports
      the same system type as the LLM plugin; each of the other two types
      has its own plugin. */
  lemma LoadedPlugins()
    ensures RegisterAll(map[], LoadOrder) ==
      map[Models.LlmApp := Plot4aiCards, Models.AgenticSystem := AgenticSystems, Models.MultiAgent := MultiAgentSystems]
  {
    var p := LoadOrder;
    assert RegisterAll(map[], p[..1]) == map[Models.LlmApp := LlmApplications] by {
      assert p[..1][..0] == [];
    }
    assert RegisterAll(map[], p[..2]) == map[Models.LlmApp := LlmApplications, Models.AgenticSystem := AgenticSystems] by {
      assert p[..2][..1] == p[..1];
    }
    assert RegisterAll(map[], p[..3]) ==
      map[Models.LlmApp := LlmApplications, Models.AgenticSystem := AgenticSystems, Models.MultiAgent := MultiAgentSystems] by {
      assert p[..3][..2] == p[..2];
    }
    assert p[..3] == p[..|p| - 1];
  }

  class PluginRegistry {
    /** `_plugins`. */
    var plugins: map<Models.SystemType, Plugin>

    constructor ()
      ensures plugins == map[]
    {
      plugins := map[];
    }

    /** `register`: stores the plugin under its system type, replacing any
        earlier plugin for that type. */
    method Register(plugin: Plugin)
      modifies this
      ensures plugins == old(plugins)[plugin.SystemType() := plugin]
    {
      plugins := plugins[plugin.SystemType() := plugin];
    }

    /** `get_plugin`: the plugin for the type, or none. */
    method GetPlugin(systemType: Models.SystemType) returns (r: Option<Plugin>)
      ensures r.Some? <==> systemType in plugins
      ensures r.Some? ==> r.value == plugins[systemType]
    {
      if systemType in plugins {
        r := Some(plugins[systemType]);
      } else {
        r := None;
      }
    }

    /** `list_plugins`: a copy of the map; a map is a value, so what the
        caller does with it cannot reach the registry. */
    method ListPlugins() returns (r: map<Models.SystemType, Plugin>)
      ensures r == plugins
    {
      r := plugins;
    }

    /** `clear`. */
    method Clear()
      modifies this
      ensures plugins == map[]
    {
      plugins := map[];
    }

    /** `is_registered`. */
    method IsRegistered(systemType: Models.SystemType) returns (r: bool)
      ensures r <==> systemType in plugins
    {
      r := systemType in plugins;
    }

    /** `load_plugins`: the three AI plugins, then PLOT4AI. The imports it
        guards always succeed here. */
    method LoadPlugins()
      modifies this
      ensures plugins == RegisterAll(old(plugins), LoadOrder)
    {
      var i := 0;
      while i < |LoadOrder|
        invariant 0 <= i <= |LoadOrder|
        invariant plugins == RegisterAll(old(plugins), LoadOrder[..i])
      {
        assert LoadOrder[..i + 1][..i] == LoadOrder[..i];
        Register(LoadOrder[i]);
        i := i + 1;
      }
      assert LoadOrder[..i] == LoadOrder;
    }
  }
}
