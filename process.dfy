// Starting a program, as every launcher generation does it: the program,
// its arguments and its working directory. Running it is a parameter of
// each operation that starts one.
module Process {
  import opened Wrappers

  /** A process to start: program, arguments, working directory. */
  datatype Command = Command(path: string, args: seq<string>, dir: string)

  /** What waiting for a started command reports: an error, or nothing. */
  type Runner = Command -> Option<string>
}
