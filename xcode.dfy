/** The Swift snippet generator (api/xcode.py): the lower-cased prompt is
    matched against the keys of an ordered template table
    (api/xcode_templates.py) and the first key found selects the snippet. */
module Xcode {
  import opened Wrappers
  import opened Text

  // The four snippets, exactly as stored in the table.

  const DefaultTemplate: string :=
    "\n"
    + "// Default Swift code snippet\n"
    + "import Foundation\n"
    + "\n"
    + "print(\"Hello, World!\")\n"

  /** The network snippet is the text up to its use of `URLSession`, that
      name, and the rest of the snippet. */
  const NetworkTemplate: string := NetworkBeforeSession + "URLSession" + NetworkAfterSession

  const NetworkBeforeSession: string :=
    "\n"
    + "// Swift code for making a network request\n"
    + "import Foundation\n"
    + "\n"
    + "guard let url = URL(string: \"https://api.example.com/data\") else {\n"
    + "    print(\"Invalid URL\")\n"
    + "    return\n"
    + "}\n"
    + "\n"
    + "let task = "

  const NetworkAfterSession: string :=
    ".shared.dataTask(with: url) { data, response, error in\n"
    + "    if let data = data {\n"
    + "        if let jsonString = String(data: data, encoding: .utf8) {\n"
    + "            print(jsonString)\n"
    + "        }\n"
    + "    } else if let error = error {\n"
    + "        print(\"HTTP Request Failed \\(error)\")\n"
    + "    }\n"
    + "}\n"
    + "\n"
    + "task.resume()\n"

  const UiTemplate: string :=
    "\n"
    + "// Swift code for creating a simple UI with SwiftUI\n"
    + "import SwiftUI\n"
    + "\n"
    + "struct ContentView: View {\n"
    + "    var body: some View {\n"
    + "        VStack {\n"
    + "            Image(systemName: \"globe\")\n"
    + "                .imageScale(.large)\n"
    + "                .foregroundColor(.accentColor)\n"
    + "            Text(\"Hello, world!\")\n"
    + "        }\n"
    + "    }\n"
    + "}\n"

  const TableTemplate: string :=
    "\n"
    + "// Swift code for creating a simple list with SwiftUI\n"
    + "import SwiftUI\n"
    + "\n"
    + "struct ContentView: View {\n"
    + "    let data = [\"Apple\", \"Banana\", \"Cherry\", \"Date\"]\n"
    + "\n"
    + "    var body: some View {\n"
    + "        List(data, id: \\.self) { item in\n"
    + "            Text(item)\n"
    + "        }\n"
    + "    }\n"
    + "}\n"

  /** The template table in its iteration order: key, snippet. */
  const Templates: seq<(string, string)> := [
    ("default", DefaultTemplate),
    ("network", NetworkTemplate),
    ("ui", UiTemplate),
    ("table", TableTemplate)
  ]

  /** The position of the first entry of `table` whose key occurs in
      `prompt`, or `None` when no key does. */
  function FirstMatch(table: seq<(string, string)>, prompt: string): (r: Option<nat>)
    ensures r.Some? ==> r.value < |table| && Contains(prompt, table[r.value].0)
    ensures r.Some? ==> forall j :: 0 <= j < r.value ==> !Contains(prompt, table[j].0)
    ensures r.None? <==> forall j :: 0 <= j < |table| ==> !Contains(prompt, table[j].0)
  {
    if table == [] then None
    else if Contains(prompt, table[0].0) then Some(0)
    else
      match FirstMatch(table[1..], prompt)
      case None => None
      case Some(i) => Some(i + 1)
  }

  /** `generate_code`: the snippet of the first key, in table order, that
      occurs in the lower-cased prompt; the default snippet if none does. */
  function GenerateCode(prompt: string): (code: string)
    ensures code in [DefaultTemplate, NetworkTemplate, UiTemplate, TableTemplate]
    ensures Contains(Lower(prompt), "default") ==> code == DefaultTemplate
    ensures (!Contains(Lower(prompt), "default") && Contains(Lower(prompt), "network"))
      ==> code == NetworkTemplate
    ensures (!Contains(Lower(prompt), "default") && !Contains(Lower(prompt), "network") &&
             Contains(Lower(prompt), "ui"))
      ==> code == UiTemplate
    ensures (!Contains(Lower(prompt), "default") && !Contains(Lower(prompt), "network") &&
             !Contains(Lower(prompt), "ui") && Contains(Lower(prompt), "table"))
      ==> code == TableTemplate
    ensures (!Contains(Lower(prompt), "default") && !Contains(Lower(prompt), "network") &&
             !Contains(Lower(prompt), "ui") && !Contains(Lower(prompt), "table"))
      ==> code == DefaultTemplate
  {
    var lowered := Lower(prompt);
    assert Templates[0] == ("default", DefaultTemplate) && Templates[1] == ("network", NetworkTemplate);
    assert Templates[2] == ("ui", UiTemplate) && Templates[3] == ("table", TableTemplate);
    match FirstMatch(Templates, lowered)
    case Some(i) => Templates[i].1
    case None => DefaultTemplate
  }

  /** The choice is case-insensitive: prompts equal up to letter case get the
      same snippet. */
  lemma GenerateCodeIgnoresCase(p1: string, p2: string)
    requires Lower(p1) == Lower(p2)
    ensures GenerateCode(p1) == GenerateCode(p2)
  {
  }

  /** "network" selects the network snippet, which makes its request with
      `URLSession`: the prompt contains no `d`, so the "default" key is not
      found first. */
  lemma NetworkPrompt()
    ensures GenerateCode("network") == NetworkTemplate
    ensures Contains(GenerateCode("network"), "URLSession")
  {
    ContainedInMiddle(NetworkBeforeSession, "URLSession", NetworkAfterSession);
    assert Lower("network") == "network";
    NotContainedMissingChar("network", "default", 'd');
    ContainedAsPrefix("network", "");
    assert "network" + "" == "network";
  }

  /** No key of the table occurs in "unknown": it lacks a letter of each. */
  lemma NoKeyInUnknown(p: string)
    requires p == "unknown"
    ensures !Contains(p, "default") && !Contains(p, "network")
    ensures !Contains(p, "ui") && !Contains(p, "table")
  {
    NotContainedMissingChar(p, "default", 'd');
    NotContainedMissingChar(p, "network", 'e');
    NotContainedMissingChar(p, "ui", 'i');
    NotContainedMissingChar(p, "table", 'a');
  }

  /** Hence "unknown" gets the default snippet. */
  lemma UnknownPrompt()
    ensures GenerateCode("unknown") == DefaultTemplate
  {
    assert Lower("unknown") == "unknown";
    NoKeyInUnknown("unknown");
  }

  /** A prompt holding both "default" and "network" gets the default
      snippet, which is not the network one: "default" is first in the table. */
  lemma DefaultKeyWins(prompt: string)
    requires Contains(Lower(prompt), "default") && Contains(Lower(prompt), "network")
    ensures GenerateCode(prompt) == DefaultTemplate != NetworkTemplate
  {
    assert |DefaultTemplate| == 73 && |NetworkTemplate| == 479;
  }

  /** The default snippet prints "Hello, World!". */
  lemma DefaultTemplateGreets()
    ensures Contains(DefaultTemplate, "Hello, World!")
  {
    assert DefaultTemplate[57..70] == "Hello, World!";
    assert OccursAt(DefaultTemplate, "Hello, World!", 57);
  }
}
