/**
 * The template-type registry of internal/core/registry.go: a map from a type's name to the type,
 * updated in place by Register, and the global instance that internal/templates/init.go fills at
 * start-up.
 */
module Registry {
  import opened Wrappers
  import opened Templates

  const NotFoundPrefix: string := "template type not found: "

  /** What Get answers for a registry holding `templates`. */
  function Lookup(templates: map<string, TemplateKind>, name: string): (r: Result<TemplateKind, string>)
    ensures r.Ok? <==> name in templates
    ensures r.Ok? ==> r.value == templates[name]
    ensures r.Err? ==> r.error == NotFoundPrefix + name
  {
    if name in templates then Ok(templates[name]) else Err(NotFoundPrefix + name)
  }

  /** Every type is stored under its own name. */
  ghost predicate StoredUnderName(templates: map<string, TemplateKind>) {
    forall n :: n in templates ==> templates[n].Name() == n
  }

  /** No name occurs twice. */
  predicate Distinct(names: seq<string>) {
    forall i, j :: 0 <= i < j < |names| ==> names[i] != names[j]
  }

  class TemplateRegistry {
    var templates: map<string, TemplateKind>

    /** NewTemplateRegistry: an empty registry. */
    constructor ()
      ensures templates == map[]
    {
      templates := map[];
    }

    /** Register: store the type under its name, replacing any earlier type of that name. */
    method Register(t: TemplateKind)
      modifies this
      ensures templates == old(templates)[t.Name() := t]
      ensures StoredUnderName(old(templates)) ==> StoredUnderName(templates)
    {
      templates := templates[t.Name() := t];
    }

    /** Get: the registered type, or the not-found error naming the key. */
    function Get(name: string): (r: Result<TemplateKind, string>)
      reads this
      ensures r == Lookup(templates, name)
    {
      if name in templates then Ok(templates[name]) else Err(NotFoundPrefix + name)
    }

    /** List: every registered name exactly once, in the order the map is iterated. */
    method List() returns (names: seq<string>)
      ensures forall n :: n in names <==> n in templates
      ensures Distinct(names)
      ensures |names| == |templates|
    {
      names := [];
      var remaining := templates.Keys;
      while remaining != {}
        invariant remaining <= templates.Keys
        invariant forall n :: n in names <==> n in templates && n !in remaining
        invariant Distinct(names)
        invariant |names| + |remaining| == |templates.Keys|
        decreases remaining
      {
        var n :| n in remaining;
        names := names + [n];
        remaining := remaining - {n};
      }
    }
  }

  /** The map the global registry holds once package init has run: frontend and go-api only. */
  function InitialTemplates(): map<string, TemplateKind> {
    map[Frontend.Name() := Frontend][GoApi.Name() := GoApi]
  }

  /** Package init of internal/templates: a fresh registry with frontend, then go-api, registered. */
  method InitGlobalRegistry() returns (r: TemplateRegistry)
    ensures fresh(r)
    ensures r.templates == InitialTemplates()
  {
    r := new TemplateRegistry();
    r.Register(Frontend);
    r.Register(GoApi);
  }

  /** A lookup after Register finds the new type under its name and is unchanged for every other name. */
  lemma LookupAfterRegister(templates: map<string, TemplateKind>, t: TemplateKind, name: string)
    ensures Lookup(templates[t.Name() := t], name) == if name == t.Name() then Ok(t) else Lookup(templates, name)
  {
  }

  /** Registering the same type twice leaves the same registry as registering it once. */
  lemma RegisterIdempotent(templates: map<string, TemplateKind>, t: TemplateKind)
    ensures templates[t.Name() := t][t.Name() := t] == templates[t.Name() := t]
  {
  }

  /**
   * After init the registry holds exactly "frontend" and "go-api", each under its own name;
   * "fullstack" is not found.
   */
  lemma InitialTemplatesContents()
    ensures InitialTemplates().Keys == {"frontend", "go-api"}
    ensures StoredUnderName(InitialTemplates())
    ensures Lookup(InitialTemplates(), "frontend") == Ok(Frontend)
    ensures Lookup(InitialTemplates(), "go-api") == Ok(GoApi)
    ensures Lookup(InitialTemplates(), "fullstack") == Err(NotFoundPrefix + "fullstack")
  {
    assert "fullstack" != "frontend" && "fullstack" != "go-api" by {
      assert "fullstack"[1] != "frontend"[1] && "fullstack"[0] != "go-api"[0];
    }
  }
}
