/** The plugin's main object: a two-tier property store (declared
    properties plus a `container` of named services) behind PHP's magic
    `__get`, `__set` and `__isset`, the fixed path table behind `__call`,
    the requirements gate of `setup()`, the create-once `get()`, and the
    two link filters of the plugins screen. */
module Plugin {
  import opened Php

  /** A PHP value held by the plugin object. An object is known only by its
      class name. */
  datatype Value =
    | Null
    | Str(s: string)
    | Obj(cls: string)
    | List(items: seq<Value>)
    | Dict(entries: map<string, Value>)

  const Version := "0.2.2"
  const DbVersion := "1"
  const MinClassicPressVersion := "1.0.2"
  const MinPhpVersion := "7.0"

  /** The declared scalar instance properties. */
  const DeclaredScalars: set<string> := {"version", "db_version", "classicpress_version", "php_version"}

  /** Every property the class declares, the static `$instance` included. */
  const DeclaredNames: set<string> := DeclaredScalars + {"container", "messages", "instance"}

  /** An action registered with the host: the hook and the method of this
      object that runs on it. */
  datatype Hook = Hook(tag: string, callback: string)

  /** The declared scalar properties of a new object. */
  const InitialProps: map<string, Value> :=
    map["version" := Str(Version), "db_version" := Str(DbVersion),
        "classicpress_version" := Str(MinClassicPressVersion), "php_version" := Str(MinPhpVersion)]

  const DeactivateHooks: seq<Hook> := [Hook("admin_init", "auto_deactivate"), Hook("admin_notices", "activation_error")]

  function ClassicPressMessage(version: string): string
  {
    "ClassicPress SEO requires ClassicPress version " + version + " or above. Please update ClassicPress."
  }

  function PhpMessage(version: string): string
  {
    "ClassicPress SEO requires PHP version " + version + " or above. Please update PHP."
  }

  /** The messages `requirements()` adds: one per failed check, the
      ClassicPress check first. */
  function RequirementMessages(classicPressTooOld: bool, phpTooOld: bool, cpVersion: string, phpVersion: string): (ms: seq<string>)
    ensures |ms| == (if classicPressTooOld then 1 else 0) + (if phpTooOld then 1 else 0)
    ensures ms == [] <==> !classicPressTooOld && !phpTooOld
    ensures classicPressTooOld ==> ms[0] == ClassicPressMessage(cpVersion)
    ensures phpTooOld ==> ms[|ms| - 1] == PhpMessage(phpVersion)
  {
    (if classicPressTooOld then [ClassicPressMessage(cpVersion)] else [])
    + (if phpTooOld then [PhpMessage(phpVersion)] else [])
  }

  /** The services `instantiate()` puts in the container, by class. */
  function Instantiated(): (m: map<string, Value>)
    ensures m.Keys == {"settings", "json", "notification", "manager", "rewrite"}
    ensures forall k :: k in m ==> m[k].Obj?
  {
    map[
      "settings" := Obj("ClassicPress_SEO\\Settings"),
      "json" := Obj("ClassicPress_SEO\\Json_Manager"),
      "notification" := Obj("ClassicPress_SEO\\Notification_Center"),
      "manager" := Obj("ClassicPress_SEO\\Module\\Manager"),
      "rewrite" := Obj("ClassicPress_SEO\\Rewrite")
    ]
  }

  /** The `ClassicPress_SEO` object. */
  class ClassicPressSeo {
    /** The declared scalar properties, by name. */
    var props: map<string, Value>
    /** The `$container` array of named services and other values. */
    var container: map<string, Value>
    /** The `$messages` list of install errors. */
    var messages: seq<string>
    /** The deactivation actions `requirements()` has registered with the
        host (the actions `init_actions()` hooks are not recorded). */
    var hooks: seq<Hook>
    /** Whether `setup()` got past the requirements gate (constants
        defined, services instantiated, actions hooked). */
    var booted: bool

    /** Every declared scalar property exists, and no value reaches the
        container under the name of a declared property: `__set` writes
        those to the property itself. */
    ghost predicate Valid()
      reads this
    {
      props.Keys == DeclaredScalars
      && forall k :: k in container ==> k !in DeclaredNames
    }

    constructor ()
      ensures Valid()
      ensures props == InitialProps
      ensures container == map[] && messages == [] && hooks == [] && !booted
    {
      props := InitialProps;
      container := map[];
      messages := [];
      hooks := [];
      booted := false;
    }

    /** `$this->{$name}` for an instance property; `Null` for a name that
        is not one (the static `$instance` included). */
    function PropValue(name: string): Value
      reads this
    {
      if name in props then props[name]
      else if name == "container" then Dict(container)
      else if name == "messages" then
        var ms := messages;
        List(seq(|ms|, i requires 0 <= i < |ms| => Str(ms[i])))
      else Null
    }

    /** `__isset`: the property is set, or the container holds a non-null
        value under the name. */
    predicate IsSet(name: string)
      reads this
      ensures name in container && container[name] != Null ==> IsSet(name)
      ensures name !in props && name in {"container", "messages"} ==> IsSet(name)
      ensures name !in props && name !in {"container", "messages"} ==>
        (IsSet(name) <==> name in container && container[name] != Null)
    {
      PropValue(name) != Null || (name in container && container[name] != Null)
    }

    /** `__get`: the container is consulted first, and an entry there wins
        even when its value is null; otherwise the property, or null. */
    function Get(name: string): (v: Value)
      reads this
      ensures name in container ==> v == container[name]
      ensures name !in container ==> v == PropValue(name)
      ensures v != Null ==> IsSet(name)
      ensures IsSet(name) && v == Null ==> name in container && container[name] == Null
    {
      if name in container then container[name]
      else if PropValue(name) != Null then PropValue(name)
      else Null
    }

    /** `__set`: a declared property is written in place and the container
        is left alone; any other name is stored in the container, where a
        later `__get` finds it. */
    method Set(name: string, value: Value)
      requires name !in {"container", "messages", "instance"}
      modifies this
      ensures name in DeclaredScalars ==> props == old(props)[name := value] && container == old(container)
      ensures name !in DeclaredScalars ==> container == old(container)[name := value] && props == old(props)
      ensures messages == old(messages) && hooks == old(hooks) && booted == old(booted)
      ensures name !in DeclaredScalars || name !in container ==> Get(name) == value
      ensures old(Valid()) ==> Valid()
    {
      if name in DeclaredScalars {
        props := props[name := value];
      } else {
        container := container[name := value];
      }
    }

    /** `requirements()`: one message per failed version check; on failure
        the deactivation actions are hooked. The result is true exactly
        when there are no messages. */
    method Requirements(classicPressTooOld: bool, phpTooOld: bool) returns (ok: bool)
      requires "classicpress_version" in props && props["classicpress_version"].Str?
      requires "php_version" in props && props["php_version"].Str?
      modifies this
      ensures props == old(props) && container == old(container) && booted == old(booted)
      ensures messages == old(messages) + RequirementMessages(classicPressTooOld, phpTooOld,
                                                              props["classicpress_version"].s, props["php_version"].s)
      ensures ok <==> messages == []
      ensures hooks == old(hooks) + (if ok then [] else DeactivateHooks)
    {
      if classicPressTooOld {
        messages := messages + [ClassicPressMessage(props["classicpress_version"].s)];
      }
      if phpTooOld {
        messages := messages + [PhpMessage(props["php_version"].s)];
      }
      if messages == [] {
        return true;
      }
      hooks := hooks + DeactivateHooks;
      return false;
    }

    /** `setup()`: past the requirements gate the services are put in the
        container and the plugin boots; a failed gate leaves everything
        but the messages and the deactivation hooks as it was. */
    method Setup(classicPressTooOld: bool, phpTooOld: bool)
      requires "classicpress_version" in props && props["classicpress_version"].Str?
      requires "php_version" in props && props["php_version"].Str?
      modifies this
      ensures props == old(props)
      ensures messages == old(messages) + RequirementMessages(classicPressTooOld, phpTooOld,
                                                              props["classicpress_version"].s, props["php_version"].s)
      ensures messages == [] ==> booted && container == old(container) + Instantiated() && hooks == old(hooks)
      ensures messages != [] ==> booted == old(booted) && container == old(container) && hooks == old(hooks) + DeactivateHooks
      ensures old(Valid()) ==> Valid()
    {
      var ok := Requirements(classicPressTooOld, phpTooOld);
      if !ok {
        return;
      }
      container := container + Instantiated();
      booted := true;
    }
  }

  /** The state `setup()` leaves a new object in: the default
      properties; the messages of the failed checks; when both checks pass,
      booted with exactly the instantiated services in the container and no
      deactivation hook; otherwise not booted, an empty container and the
      two deactivation hooks. */
  ghost predicate SetUpFresh(p: ClassicPressSeo, classicPressTooOld: bool, phpTooOld: bool)
    reads p
  {
    var passed := !classicPressTooOld && !phpTooOld;
    && p.Valid()
    && p.props == InitialProps
    && p.messages == RequirementMessages(classicPressTooOld, phpTooOld, MinClassicPressVersion, MinPhpVersion)
    && p.booted == passed
    && p.container == (if passed then Instantiated() else map[])
    && p.hooks == (if passed then [] else DeactivateHooks)
  }

  /** The class's static `$instance`. */
  class Registry {
    var instance: ClassicPressSeo?

    constructor ()
      ensures instance == null
    {
      instance := null;
    }

    /** `ClassicPress_SEO::get()`: the first call creates the object and
        runs its setup; every call returns the one stored instance. */
    method Get(classicPressTooOld: bool, phpTooOld: bool) returns (p: ClassicPressSeo)
      modifies this
      ensures instance == p
      ensures old(instance) != null ==> p == old(instance) && unchanged(p)
      ensures old(instance) == null ==> fresh(p) && SetUpFresh(p, classicPressTooOld, phpTooOld)
    {
      if instance == null {
        var created := new ClassicPressSeo();
        instance := created;
        created.Setup(classicPressTooOld, phpTooOld);
        assert map[] + Instantiated() == Instantiated();
      }
      p := instance;
    }

    /** Two calls of `get()` give the same object, and the second one does
        not run setup again: after a first call on an empty registry the
        object is still in the state the first setup left, whatever the
        second call's requirement checks would have said. */
    method GetTwice(classicPressTooOld: bool, phpTooOld: bool) returns (first: ClassicPressSeo, second: ClassicPressSeo)
      modifies this
      ensures first == second && instance == first
      ensures old(instance) != null ==> first == old(instance) && unchanged(first)
      ensures old(instance) == null ==> fresh(first) && SetUpFresh(first, classicPressTooOld, phpTooOld)
    {
      first := Get(classicPressTooOld, phpTooOld);
      second := Get(!classicPressTooOld, !phpTooOld);
    }
  }

  /** The names `__call` answers from its path table. */
  const PathNames: set<string> := {"plugin_dir", "plugin_url", "includes_dir", "assets", "admin_dir"}

  /** `__call` for the path table: the five known names resolve to fixed
      paths under the plugin directory or URL; any other name is not in
      the table (`None`) and is handed on to a global function. */
  function CallPath(name: string, pluginDir: string, pluginUrl: string): (r: Option<string>)
    ensures r.Some? <==> name in PathNames
    ensures name in {"plugin_dir", "includes_dir", "admin_dir"} ==> r.Some? && pluginDir <= r.value
    ensures name in {"plugin_url", "assets"} ==> r.Some? && pluginUrl <= r.value
    ensures name == "plugin_dir" ==> r == Some(pluginDir)
    ensures name == "plugin_url" ==> r == Some(pluginUrl)
    ensures name == "includes_dir" ==> r == Some(pluginDir + "includes/")
    ensures name == "assets" ==> r == Some(pluginUrl + "assets/front/")
    ensures name == "admin_dir" ==> r == Some(pluginDir + "includes/admin/")
  {
    var table := [
      ("plugin_dir", pluginDir),
      ("plugin_url", pluginUrl),
      ("includes_dir", pluginDir + "includes/"),
      ("assets", pluginUrl + "assets/front/"),
      ("admin_dir", pluginDir + "includes/admin/")
    ];
    assert Keys(table) == ["plugin_dir", "plugin_url", "includes_dir", "assets", "admin_dir"];
    DistinctByKeys(table);
    LookupAt(table, 0); LookupAt(table, 1); LookupAt(table, 2); LookupAt(table, 3); LookupAt(table, 4);
    Lookup(table, name)
  }

  function SettingsLink(settingsUrl: string): string
  {
    "<a href=\"" + settingsUrl + "\">Settings</a>"
  }

  /** `plugin_action_links`: the links given, unchanged and in order,
      followed by exactly one link to the settings page. */
  function ActionLinks(links: seq<string>, settingsUrl: string): (r: seq<string>)
    ensures |r| == |links| + 1
    ensures r[..|links|] == links
    ensures r[|links|] == SettingsLink(settingsUrl)
  {
    links + [SettingsLink(settingsUrl)]
  }

  /** `plugin_row_meta`: the row meta of every plugin, this one included,
      comes back unchanged. */
  function RowMeta(links: seq<string>, file: string, basename: string): (r: seq<string>)
    ensures r == links
  {
    if basename != file then links else links
  }
}
