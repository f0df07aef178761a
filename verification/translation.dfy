/** The record both backends return: the generated text, the file
    extension, the import lines it needs and the header lines to put first. */
module Translation {

  /** `deps` is a set (a line added twice is kept once, in no order); `head`
      is an ordered list that may repeat a line. */
  datatype Translation = Translation(output: string, extension: string, deps: set<string>, head: seq<string>)

  /** A translation built from its two required fields: `deps` and `head`
      take their empty defaults. */
  function NewTranslation(output: string, extension: string): (t: Translation)
    ensures t.output == output && t.extension == extension
    ensures |t.deps| == 0 && |t.head| == 0
  {
    Translation(output, extension, {}, [])
  }
}
