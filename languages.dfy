/**
  The language feasibility gate: a static registry of languages, each with the
  sandbox image that runs it and a flag saying whether it is enabled, and the
  predicate that rejects a language before any run is dispatched.
 */
module Languages {

  /** One registry entry: the sandbox image for the language and whether it is enabled. */
  datatype LangConfig = LangConfig(dockerImage: string, isSupported: bool)

  /** The registry, entry for entry as code.go declares it. */
  const Table: map<string, LangConfig> := map[
    "assembly"     := LangConfig("", false),
    "bash"         := LangConfig("", false),
    "c"            := LangConfig("", false),
    "clojure"      := LangConfig("", false),
    "coffeescript" := LangConfig("", false),
    "csharp"       := LangConfig("", false),
    "d"            := LangConfig("", false),
    "elixir"       := LangConfig("", false),
    "cpp"          := LangConfig("glot/clang", true),
    "erlang"       := LangConfig("", false),
    "fsharp"       := LangConfig("", false),
    "haskell"      := LangConfig("", false),
    "idris"        := LangConfig("", false),
    "go"           := LangConfig("glot/golang", true),
    "java"         := LangConfig("glot/java", false),
    "javascript"   := LangConfig("glot/javascript", true),
    "julia"        := LangConfig("", false),
    "lua"          := LangConfig("", false),
    "nim"          := LangConfig("", false),
    "ocaml"        := LangConfig("", false),
    "perl"         := LangConfig("", false),
    "php"          := LangConfig("", false),
    "python"       := LangConfig("glot/python", true),
    "ruby"         := LangConfig("", false),
    "rust"         := LangConfig("", false),
    "scala"        := LangConfig("", false),
    "swift"        := LangConfig("", false)
  ]

  /** The languages the gate lets through, listed independently of the registry. */
  const Accepted: set<string> := {"cpp", "go", "javascript", "python"}

  /**
    A language is rejected when it has no registry entry, when its entry is
    disabled, or when its entry names no sandbox image. With the registry
    above, exactly the four languages of `Accepted` pass.
   */
  predicate IsNotSupported(lang: string)
    ensures IsNotSupported(lang) <==> lang !in Accepted
  {
    lang !in Table || !Table[lang].isSupported || Table[lang].dockerImage == ""
  }

  /** The gate's three conditions, each of which rejects on its own. */
  lemma RejectionConditions(lang: string)
    ensures lang !in Table ==> IsNotSupported(lang)
    ensures lang in Table && !Table[lang].isSupported ==> IsNotSupported(lang)
    ensures lang in Table && Table[lang].dockerImage == "" ==> IsNotSupported(lang)
    ensures lang in Table && Table[lang].isSupported && Table[lang].dockerImage != "" ==> !IsNotSupported(lang)
  {
  }

  /** Java has a sandbox image but is disabled, so it is rejected. */
  lemma JavaRejectedDespiteImage()
    ensures "java" in Table && Table["java"].dockerImage == "glot/java"
    ensures IsNotSupported("java")
  {
  }

  /** Every enabled entry has an image, so among the registry's own names the flag alone decides. */
  lemma EnabledEntriesHaveImages(lang: string)
    requires lang in Table && Table[lang].isSupported
    ensures Table[lang].dockerImage != ""
    ensures !IsNotSupported(lang)
  {
  }
}
