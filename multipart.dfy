/** Files picked in a form and the `FormData` bodies the admin pages post. */
module Multipart {
  import opened Wrappers
  import opened Text

  /** A browser `File`: its name, MIME type and size in bytes. */
  datatype File = File(name: string, mime: string, size: nat)

  /** One `formData.append(key, value)` entry: a text value or a file. */
  datatype Part = Field(key: string, value: string) | Upload(key: string, file: File)

  /** A value held in a page's form or settings state: text, a number, a
      boolean, `null`, or a chosen file. */
  datatype Value = Str(s: string) | Number(n: int) | Flag(b: bool) | Null | Attached(file: File)

  /** One `[key, value]` pair of `Object.entries(state)`, in key order. */
  datatype Entry = Entry(key: string, value: Value)

  /** `String(value)`, which for text is `value.toString()`. */
  function Stringify(v: Value): (r: string)
    ensures v.Str? ==> r == v.s
    ensures v.Number? ==> ParseInt(r) == Some(v.n)
    ensures v.Flag? ==> (r == "true" <==> v.b) && (r == "false" <==> !v.b)
  {
    match v
    case Str(s) => s
    case Number(n) => ParseIntToString(n); IntToString(n)
    case Flag(b) => if b then "true" else "false"
    case Null => "null"
    case Attached(_) => "[object File]"
  }

  /** The keys of a body, in the order they were appended. */
  function Keys(parts: seq<Part>): (r: seq<string>)
    ensures |r| == |parts|
    ensures forall i :: 0 <= i < |parts| ==> r[i] == parts[i].key
  {
    if parts == [] then [] else [parts[0].key] + Keys(parts[1..])
  }

  lemma KeysAppend(a: seq<Part>, b: seq<Part>)
    ensures Keys(a + b) == Keys(a) + Keys(b)
  {
  }
}
