/**
 * The nil-safe choices of logging/options.go.  A nil `*Options` is None.
 */
module LoggingOptions {
  import opened Results

  const StdoutFile: string := "stdout"

  /** The logging configuration; the three sizes go to the rolling-file writer. */
  datatype Options = Options(
    file: string,
    maxSize: int,
    maxAge: int,
    maxBackups: int,
    json: bool,
    level: string)

  /** The Options a configuration without any logging keys decodes to. */
  const ZeroOptions: Options := Options("", 0, 0, 0, false, "")

  /** Where log output goes: standard output, or a rolling file (a lumberjack.Logger). */
  datatype Writer = Stdout | RollingFile(filename: string, maxSize: int, maxAge: int, maxBackups: int)

  /** The logger constructor chosen: go-kit's JSON or logfmt logger. */
  datatype Format = JSONFormat | LogfmtFormat

  /**
   * `output`: standard output unless a file other than "stdout" is named, in
   * which case a rolling file configured from the options.
   */
  function Output(o: Option<Options>): (w: Writer)
    ensures w.Stdout? <==> o.None? || o.value.file == "" || o.value.file == StdoutFile
    ensures w.RollingFile? ==>
              && w.filename == o.value.file
              && w.maxSize == o.value.maxSize
              && w.maxAge == o.value.maxAge
              && w.maxBackups == o.value.maxBackups
  {
    if o.Some? && |o.value.file| > 0 && o.value.file != StdoutFile then
      RollingFile(o.value.file, o.value.maxSize, o.value.maxAge, o.value.maxBackups)
    else
      Stdout
  }

  /** `loggerFactory`: JSON exactly when options are present and ask for it. */
  function LoggerFactory(o: Option<Options>): (f: Format)
    ensures f == JSONFormat <==> o.Some? && o.value.json
  {
    if o.Some? && o.value.json then JSONFormat else LogfmtFormat
  }

  /** `level`: the configured level, or "" without options. */
  function Level(o: Option<Options>): (l: string)
    ensures o.Some? ==> l == o.value.level
    ensures o.None? ==> l == ""
  {
    if o.Some? then o.value.level else ""
  }

  /** Nil options behave exactly like zero-valued options in all three choices. */
  lemma NilOptionsAreZeroOptions()
    ensures Output(None) == Output(Some(ZeroOptions)) == Stdout
    ensures LoggerFactory(None) == LoggerFactory(Some(ZeroOptions)) == LogfmtFormat
    ensures Level(None) == Level(Some(ZeroOptions)) == ""
  {
  }
}
