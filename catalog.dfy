/**
 * The language catalog: the languages offered in the selector (with the
 * execution service's numeric language ids), the starter program for each,
 * and the editor's syntax-highlighting mode for an id.
 */
module Catalog {
  import opened Js

  datatype Language = Language(id: int, name: string)

  /** The selector's options, in display order. */
  const Languages: seq<Language> := [
    Language(71, "Python 3"),
    Language(63, "JavaScript Node"),
    Language(54, "C++ (GCC)"),
    Language(62, "Java (OpenJDK)"),
    Language(50, "C (GCC)"),
    Language(68, "PHP"),
    Language(72, "Ruby"),
    Language(73, "Rust"),
    Language(60, "Go"),
    Language(74, "TypeScript")
  ]

  /** The starter program for each language id. */
  const Samples: map<int, string> := map[
    71 := "print(\"Hello, Judge0!\")",
    63 := "console.log(\"Hello, Judge0!\");",
    54 := "#include <iostream>\nint main(){ std::cout<<\"Hello C++!\"; return 0; }",
    62 := "class Main{ public static void main(String[] a){ System.out.println(\"Hello Java!\"); } }",
    50 := "#include <stdio.h>\nint main(){ printf(\"Hello C!\"); return 0; }",
    68 := "<?php echo \"Hello PHP!\"; ?>",
    72 := "puts \"Hello Ruby!\"",
    73 := "fn main(){ println!(\"Hello Rust!\"); }",
    60 := "package main\nimport \"fmt\"\nfunc main(){ fmt.Println(\"Hello Go!\") }",
    74 := "console.log(\"Hello TypeScript (compiled)\");"
  ]

  /** The ids the selector offers. */
  function LanguageIds(): set<int>
  {
    set i | 0 <= i < |Languages| :: Languages[i].id
  }

  /**
   * The editor mode for a language id. Only the offered ids are classified;
   * the two JavaScript-family ids share one mode and every other id falls
   * back to "plaintext".
   */
  function IdToMonacoLang(id: int): (mode: string)
    ensures mode != ""
    ensures mode == "javascript" <==> id == 63 || id == 74
    ensures mode == "plaintext" <==> id !in LanguageIds()
  {
    LanguageIdsListed();
    if id == 71 then "python"
    else if id == 63 || id == 74 then "javascript"
    else if id == 54 then "cpp"
    else if id == 62 then "java"
    else if id == 50 then "c"
    else if id == 68 then "php"
    else if id == 72 then "ruby"
    else if id == 73 then "rust"
    else if id == 60 then "go"
    else "plaintext"
  }

  /** `samples[id]` as JavaScript reads it: absent for an id without a sample. */
  function SampleEntry(id: int): Option<string>
  {
    if id in Samples then Some(Samples[id]) else None
  }

  /** `samples[id] || ""`: the text the editor receives on a selection change. */
  function SampleOrEmpty(id: int): (text: string)
    ensures id in Samples ==> text == Samples[id]
    ensures id !in Samples ==> text == ""
  {
    Or(SampleEntry(id), Some("")).value
  }

  /** The offered ids, written out. */
  lemma LanguageIdsListed()
    ensures LanguageIds() == {71, 63, 54, 62, 50, 68, 72, 73, 60, 74}
  {
    var listed := {71, 63, 54, 62, 50, 68, 72, 73, 60, 74};
    forall id | id in LanguageIds() ensures id in listed {
      var i :| 0 <= i < |Languages| && Languages[i].id == id;
      assert i in {0, 1, 2, 3, 4, 5, 6, 7, 8, 9};
    }
    assert Languages[0].id == 71 && Languages[1].id == 63 && Languages[2].id == 54;
    assert Languages[3].id == 62 && Languages[4].id == 50 && Languages[5].id == 68;
    assert Languages[6].id == 72 && Languages[7].id == 73 && Languages[8].id == 60;
    assert Languages[9].id == 74;
  }

  /** Every offered language has a sample, and no id without an option has one. */
  lemma SamplesCoverLanguages()
    ensures Samples.Keys == LanguageIds()
  {
    LanguageIdsListed();
  }

  /** The ids in the selector are pairwise distinct. */
  lemma LanguageIdsUnique()
    ensures forall i, j :: 0 <= i < j < |Languages| ==> Languages[i].id != Languages[j].id
  {
  }

  /**
   * The classifier's grouping: 71 is the one Python id, 63 and 74 share the
   * JavaScript mode, and no other two offered ids share a mode.
   */
  lemma ModesOfCatalog()
    ensures IdToMonacoLang(71) == "python"
    ensures forall a, b :: a in LanguageIds() && b in LanguageIds() && a != b && IdToMonacoLang(a) == IdToMonacoLang(b)
              ==> {a, b} == {63, 74}
  {
    LanguageIdsListed();
  }

  /**
   * A selection change puts exactly the sample into the editor for an offered
   * id, a non-empty text, and the empty text for any other id.
   */
  lemma SelectionText(id: int)
    ensures id in LanguageIds() ==> SampleOrEmpty(id) == Samples[id] && SampleOrEmpty(id) != ""
    ensures id !in LanguageIds() ==> SampleOrEmpty(id) == ""
  {
    SamplesCoverLanguages();
  }
}
