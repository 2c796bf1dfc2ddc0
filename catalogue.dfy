/** The catalogue of selectable languages served to the editor: a constant list
    of numbered entries, each naming a language and its source-file extension. */
module Catalogue {
  import opened Wrappers
  import opened Languages

  datatype Language = Language(id: nat, name: string, extension: string)

  /** `getAllLanguages()`: five entries numbered 1 to 5 in order. */
  function AllLanguages(): (r: seq<Language>)
    ensures |r| == 5
    ensures forall i :: 0 <= i < |r| ==> r[i].id == i + 1
  {
    [Language(1, "JS", ".js"),
     Language(2, "C++", ".cpp"),
     Language(3, "Java", ".java"),
     Language(4, "Python", ".py"),
     Language(5, "TS", ".ts")]
  }

  /** Ids, names and extensions each identify an entry. */
  lemma EntriesDistinct()
    ensures forall i, j :: 0 <= i < j < |AllLanguages()| ==>
      && AllLanguages()[i].id != AllLanguages()[j].id
      && AllLanguages()[i].name != AllLanguages()[j].name
      && AllLanguages()[i].extension != AllLanguages()[j].extension
  {
  }

  /** Every extension is a dot followed by at least one character. */
  lemma ExtensionsStartWithDot()
    ensures forall e :: e in AllLanguages() ==> |e.extension| > 1 && e.extension[0] == '.'
  {
  }

  /** The run table's toolchain for a catalogue entry, found by extension. */
  function ToolchainOf(e: Language): (r: Option<Toolchain>)
    ensures r.Some? ==> Extension(r.value) == e.extension
    ensures r.None? ==> forall t: Toolchain :: Extension(t) != e.extension
  {
    if e.extension == ".js" then Some(Js)
    else if e.extension == ".ts" then Some(Ts)
    else if e.extension == ".py" then Some(Py)
    else if e.extension == ".java" then Some(Java)
    else if e.extension == ".cpp" then Some(Cpp)
    else None
  }

  /** The catalogue and the run table list the same extensions: every entry
      has a toolchain with its extension, and every toolchain is listed by
      exactly one entry. */
  lemma CatalogueMatchesRunTable()
    ensures forall e :: e in AllLanguages() ==> ToolchainOf(e).Some?
    ensures forall t: Toolchain :: exists i :: 0 <= i < |AllLanguages()| && ToolchainOf(AllLanguages()[i]) == Some(t)
    ensures forall i, j :: 0 <= i < j < |AllLanguages()| ==> ToolchainOf(AllLanguages()[i]) != ToolchainOf(AllLanguages()[j])
  {
    CatalogueToolchains();
    var cat := AllLanguages();
    forall t: Toolchain ensures exists i :: 0 <= i < |cat| && ToolchainOf(cat[i]) == Some(t) {
      match t
      case Js => assert ToolchainOf(cat[0]) == Some(Js);
      case Cpp => assert ToolchainOf(cat[1]) == Some(Cpp);
      case Java => assert ToolchainOf(cat[2]) == Some(Java);
      case Py => assert ToolchainOf(cat[3]) == Some(Py);
      case Ts => assert ToolchainOf(cat[4]) == Some(Ts);
    }
  }

  /** The toolchain of each entry, position by position. */
  lemma CatalogueToolchains()
    ensures ToolchainOf(AllLanguages()[0]) == Some(Js)
    ensures ToolchainOf(AllLanguages()[1]) == Some(Cpp)
    ensures ToolchainOf(AllLanguages()[2]) == Some(Java)
    ensures ToolchainOf(AllLanguages()[3]) == Some(Py)
    ensures ToolchainOf(AllLanguages()[4]) == Some(Ts)
  {
  }
}
