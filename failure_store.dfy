/** The failure log `failures.log`: an append-only file holding one serialized
    payload per line. */
module FailureStore {
  import opened Bytes
  import opened Payloads

  const Newline: Line := "\n"

  /** How one append attempt went. Opening the file, marshalling the payload and
      writing the line are foreign calls, so their outcome is an input of the model. */
  datatype StoreOutcome = OpenFailed | MarshalFailed | WriteFailed | Written

  /** The lines that one `logFailure(payload)` call with this outcome adds to the file. */
  function Entries(p: Payload, o: StoreOutcome): (ls: seq<Line>)
    ensures |ls| == (if o == Written then 1 else 0)
  {
    if o == Written then [Json(p)] else []
  }

  /** For a plain payload, the line a logged failure adds reads back as the payload itself. */
  lemma EntriesReadBack(p: Payload, o: StoreOutcome)
    requires PlainPayload(p)
    ensures forall l :: l in Entries(p, o) ==> ParseJson(l) == Some(p)
  {
    if o == Written {
      ParseJsonOfJson(p);
    }
  }

  /** The bytes of a file made of `lines`, each followed by a newline. */
  function Text(lines: seq<Line>): Line
  {
    if lines == [] then [] else Text(lines[..|lines| - 1]) + lines[|lines| - 1] + Newline
  }

  /** Adding a line to the file adds exactly its bytes and a newline at the end,
      and leaves every earlier byte where it was. */
  lemma {:induction false} TextAppend(lines: seq<Line>, line: Line)
    ensures Text(lines + [line]) == Text(lines) + line + Newline
    ensures Text(lines) <= Text(lines + [line])
  {
    assert (lines + [line])[..|lines|] == lines;
  }

  /** The file `failures.log`, opened for appending and created when absent. */
  class FailureFile {
    /** Its lines, in the order they were written, without their newlines. */
    var lines: seq<Line>

    constructor (initial: seq<Line>)
      ensures lines == initial
    {
      lines := initial;
    }

    /** The bytes of the file. */
    function Contents(): Line
      reads this
    {
      Text(lines)
    }

    /** `file.WriteString(line + "\n")` on a file opened with `O_APPEND`. */
    method Append(line: Line)
      modifies this
      ensures lines == old(lines) + [line]
      ensures Contents() == old(Contents()) + line + Newline
    {
      TextAppend(lines, line);
      lines := lines + [line];
    }
  }
}
