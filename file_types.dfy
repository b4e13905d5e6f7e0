/** Choosing the grammar from the two input files' extensions. */
module FileTypes {
  import opened Wrappers

  datatype Language = JavaScript | C

  /** Why no grammar could be chosen. */
  datatype SelectionError =
    | UnknownType                   // an extension is missing
    | DifferentTypes                // the two extensions differ
    | UnsupportedType(ext: string)  // no grammar for this extension

  const LanguagesByFileExtension: map<string, Language> :=
    map["js" := JavaScript, "c" := C, "h" := C]

  /** The guards on the two files' extensions, checked in order: both present,
      both equal, known to the table. */
  function SelectLanguage(aType: Option<string>, bType: Option<string>): (r: Result<Language, SelectionError>)
    ensures r.Ok? <==>
      aType.Some? && bType.Some? && aType.value == bType.value && aType.value in {"js", "c", "h"}
    ensures r.Ok? ==> r.value == (if aType.value == "js" then JavaScript else C)
    ensures aType.None? || bType.None? ==> r == Err(UnknownType)
    ensures aType.Some? && bType.Some? && aType.value != bType.value ==> r == Err(DifferentTypes)
    ensures aType.Some? && bType.Some? && aType.value == bType.value && aType.value !in {"js", "c", "h"} ==>
      r == Err(UnsupportedType(aType.value))
  {
    if aType.None? || bType.None? then Err(UnknownType)
    else if aType.value != bType.value then Err(DifferentTypes)
    else if aType.value !in LanguagesByFileExtension then Err(UnsupportedType(aType.value))
    else Ok(LanguagesByFileExtension[aType.value])
  }

  /** A C source and a C header are parsed with the same grammar, yet a C
      source is still not compared with a C header. */
  lemma CAndHShareLanguage()
    ensures SelectLanguage(Some("c"), Some("c")) == SelectLanguage(Some("h"), Some("h")) == Ok(C)
    ensures SelectLanguage(Some("c"), Some("h")) == Err(DifferentTypes)
  {
  }
}
