/**
 * The process's console as the crash handler sees it: standard input as a
 * script of line reads still to come, standard output as the text printed
 * so far.
 */
module Io {
  /** The result of one `read_line`: the line read (with its line break, if any) or an I/O error. */
  datatype ReadResult = Line(text: string) | Failure

  /** The next read from a script; an exhausted script is end of input, which reads as an empty line. */
  function NextRead(script: seq<ReadResult>): (r: ReadResult)
    ensures script != [] ==> r == script[0]
    ensures script == [] ==> r == Line("")
  {
    if script == [] then Line("") else script[0]
  }

  /** What is left of a script after one read. */
  function AfterRead(script: seq<ReadResult>): (rest: seq<ReadResult>)
    ensures script != [] ==> script == [script[0]] + rest
    ensures script == [] ==> rest == []
  {
    if script == [] then [] else script[1..]
  }

  /** The buffer after `read_line` appended to it: a successful read appends the line, a failed one leaves it alone. */
  function Appended(buffer: string, r: ReadResult): (b: string)
    ensures r.Line? ==> b == buffer + r.text
    ensures r.Failure? ==> b == buffer
  {
    match r
    case Line(text) => buffer + text
    case Failure => buffer
  }

  class Console {
    /** Reads not yet made on standard input. */
    var input: seq<ReadResult>
    /** Everything written to standard output so far. */
    var output: string

    constructor (script: seq<ReadResult>)
      ensures input == script && output == []
    {
      input := script;
      output := [];
    }

    /** `io::stdin().read_line(&mut buffer)`: consumes one read and appends what it read to the buffer. */
    method ReadLine(buffer: string) returns (r: ReadResult, appended: string)
      modifies this
      ensures r == NextRead(old(input)) && input == AfterRead(old(input))
      ensures appended == Appended(buffer, r)
      ensures output == old(output)
    {
      r := NextRead(input);
      input := AfterRead(input);
      appended := Appended(buffer, r);
    }

    /** `println!`: writes the text and a line break. */
    method PrintLine(s: string)
      modifies this
      ensures output == old(output) + s + "\n"
      ensures input == old(input)
    {
      output := output + s + "\n";
    }
  }
}
