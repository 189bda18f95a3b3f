/** `BazosSkFormatterService`: the lookup of a formatter class in the
    `FORMATTERS` table of the Slovak data source. */
module BazosSkFormatterService {

  import opened Common

  /** What `get_formatter` may be handed: a configured formatter name, or a
      formatter object of some class (which is never equal to a text key). */
  datatype FormatterKey = ByName(name: string) | ByObject(cls: ClassId)

  /** A formatter table: each name maps to a class, or to `None`. */
  type FormatterTable = map<string, Option<ClassId>>

  /** The shipped `FORMATTERS` table of `bazos_sk/formatters/config.py`. */
  const FORMATTERS: FormatterTable := map["email_formatter" := Some("BazosSkEmailFormatter")]

  /** `get_formatter`: a key with no entry, or with a `None` entry, fails;
      otherwise a new instance of the mapped class. The table is a value and
      stays as it was. */
  function GetFormatter(table: FormatterTable, key: FormatterKey): (r: Result<Instance>)
    ensures r.Ok? <==> key.ByName? && key.name in table && table[key.name].Some?
    ensures r.Ok? ==> r.value == Instance(table[key.name].value)
    ensures r.Err? ==> r.error == FormatterNotFound
  {
    match key
    case ByObject(_) => Err(FormatterNotFound)
    case ByName(name) =>
      if name !in table || table[name].None? then Err(FormatterNotFound)
      else Ok(Instance(table[name].value))
  }

  /** With the shipped table, exactly the name `email_formatter` resolves,
      to the Slovak e-mail formatter. */
  lemma ShippedTable(key: FormatterKey)
    ensures GetFormatter(FORMATTERS, key).Ok? <==> key == ByName("email_formatter")
    ensures GetFormatter(FORMATTERS, key).Ok? ==>
      GetFormatter(FORMATTERS, key).value == Instance("BazosSkEmailFormatter")
  {
  }

  /** A formatter object used as a key never resolves, whatever the table. */
  lemma ObjectKeyFails(table: FormatterTable, cls: ClassId)
    ensures GetFormatter(table, ByObject(cls)) == Err(FormatterNotFound)
  {
  }
}
