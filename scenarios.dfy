/**
  Concrete runs of the store over a small localization directory `loc` whose
  base file name is `app`.
*/
module Scenarios {
  import opened Wrappers
  import opened Common
  import opened Translation

  const EnUs: Locale := Some("en-US")
  const EsMx: Locale := Some("es-MX")

  const Hello := Obj(map["a" := Obj(map["b" := Str("hello")]), "x" := Str("only-default")])
  const Hola := Obj(map["a" := Obj(map["b" := Str("hola")])])

  /** `loc/app.json` and `loc/app.es-MX.json`, nothing for any other locale. */
  const Files := Env(FileSystem({"loc"}, map["loc/app.json" := Hello, "loc/app.es-MX.json" := Hola]), "loc", "app")

  /** The store as built: default table loaded, one (en-US, en-US) event. */
  const Started := State(EnUs, Hello, Obj(map[]), [ChangeEvent(EnUs, EnUs)])
  /** After switching to es-MX: both tables loaded, two more events. */
  const Spanish := State(EsMx, Hello, Hola,
    [ChangeEvent(EnUs, EnUs), ChangeEvent(EnUs, EsMx), ChangeEvent(EnUs, EsMx)])
  /** After switching back: the es-MX table is still held. */
  const Back := State(EnUs, Hello, Hola,
    Spanish.events + [ChangeEvent(EsMx, EnUs)])

  lemma StartUp()
    ensures Load(Initial(EnUs), EnUs, "json", Files, EnUs) == Outcome(Started, None)
  {
    assert DefaultFile(Files, "json") == "loc/app.json";
  }

  lemma SwitchToSpanish()
    ensures ChangeLocale(Started, EnUs, "json", Files, EsMx) == Outcome(Spanish, None)
  {
    assert DefaultFile(Files, "json") == "loc/app.json";
    assert LocaleFile(Files, EsMx, "json") == "loc/app.es-MX.json";
  }

  lemma SwitchBack()
    ensures ChangeLocale(Spanish, EnUs, "json", Files, EnUs) == Outcome(Back, None)
  {
    assert DefaultFile(Files, "json") == "loc/app.json";
  }

  /** At es-MX the locale's own value wins, a key it lacks falls back to the
      default table, and a key found nowhere is null. */
  lemma SpanishAnswers()
    ensures Resolve(Spanish, EnUs, "a.b") == Str("hola")
    ensures Resolve(Spanish, EnUs, "x") == Str("only-default")
    ensures Resolve(Spanish, EnUs, "a.c") == Null
  {
    GetValueDotted(Hola, "a", "b");
    GetValueDotted(Hola, "a", "c");
    GetValueDotted(Hello, "a", "c");
    GetValueField(Hola, "a");
    GetValueField(Hello, "a");
    GetValueField(Hola, "x");
    GetValueField(Hello, "x");
    GetValueField(Obj(map["b" := Str("hola")]), "b");
    GetValueField(Obj(map["b" := Str("hola")]), "c");
    GetValueField(Obj(map["b" := Str("hello")]), "c");
  }

  /** Back at en-US the default table answers although es-MX has the key. */
  lemma BackAnswers()
    ensures Resolve(Back, EnUs, "a.b") == Str("hello")
  {
    GetValueDotted(Hello, "a", "b");
    GetValueField(Hello, "a");
    GetValueField(Obj(map["b" := Str("hello")]), "b");
  }

  /** Asking for zz-ZZ, which has no file, throws naming the default file,
      yet the store is left on zz-ZZ with the default table reloaded and one
      event dispatched. */
  lemma MissingLocaleFile()
    ensures var s1 := ChangeLocale(Started, EnUs, "json", Files, Some("zz-ZZ"));
      && s1.error == Some(TranslationFileNotFound(Some("zz-ZZ"), "loc/app.json"))
      && s1.state.locale == Some("zz-ZZ")
      && s1.state.defaultTable == Hello
      && s1.state.events == [ChangeEvent(EnUs, EnUs), ChangeEvent(EnUs, Some("zz-ZZ"))]
  {
    assert DefaultFile(Files, "json") == "loc/app.json";
    assert LocaleFile(Files, Some("zz-ZZ"), "json") == "loc/app.zz-ZZ.json";
  }

  /** Switching from es-MX to zz-ZZ, which has no file, throws and leaves the
      store on zz-ZZ still holding the es-MX table, because the active table
      is never cleared; zz-ZZ lookups are then answered from the es-MX table. */
  lemma StaleActiveTable()
    ensures var s1 := ChangeLocale(Spanish, EnUs, "json", Files, Some("zz-ZZ"));
      && s1.error == Some(TranslationFileNotFound(Some("zz-ZZ"), "loc/app.json"))
      && s1.state.locale == Some("zz-ZZ")
      && s1.state.activeTable == Hola
      && Resolve(s1.state, EnUs, "a.b") == Str("hola")
  {
    assert DefaultFile(Files, "json") == "loc/app.json";
    assert LocaleFile(Files, Some("zz-ZZ"), "json") == "loc/app.zz-ZZ.json";
    GetValueDotted(Hola, "a", "b");
    GetValueField(Hola, "a");
    GetValueField(Obj(map["b" := Str("hola")]), "b");
  }
}
