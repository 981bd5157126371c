/**
 * The closed set of target languages a device class can be generated in,
 * with the integer codes and names the front end exchanges for them.
 *
 * The codes serve the class dialog only, where a code selects one of four
 * buttons and any assignment of the four codes behaves the same. The popup
 * menu, whose behaviour depends on the assignment, takes the table as an
 * input instead.
 */
module Languages {
  import opened Strings

  datatype Language = Java | Cpp | Python | PythonHL

  const LanguageCount: int := 4

  function Code(l: Language): (k: int)
    ensures 0 <= k < LanguageCount
  {
    match l
    case Java => 0
    case Cpp => 1
    case Python => 2
    case PythonHL => 3
  }

  /** The language a code stands for, if any. */
  function FromCode(k: int): (r: Option<Language>)
    ensures r.Some? <==> 0 <= k < LanguageCount
    ensures r.Some? ==> Code(r.value) == k
  {
    if k == 0 then Some(Java)
    else if k == 1 then Some(Cpp)
    else if k == 2 then Some(Python)
    else if k == 3 then Some(PythonHL)
    else None
  }

  /** The name under which a language is stored in a class description. */
  function Name(l: Language): (s: string)
    ensures |s| > 0
  {
    match l
    case Java => "Java"
    case Cpp => "Cpp"
    case Python => "Python"
    case PythonHL => "PythonHL"
  }
}
