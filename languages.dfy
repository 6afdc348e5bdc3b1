/** The three interface languages and the English fallback that every
    language-keyed table of the application uses. */
module Languages {

  const English := "English"

  /** The languages every table has an entry for. */
  const Known: set<string> := {"English", "Hindi", "Marathi"}

  /** `table.get(language, table["English"])` for a table keyed by `Known`:
      the language whose entry is used. */
  function Resolve(language: string): (r: string)
    ensures r in Known
    ensures r == language <==> language in Known
    ensures language !in Known ==> r == English
  {
    if language in Known then language else English
  }
}
