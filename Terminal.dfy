/**
 * The editor's terminal panel (apps/web/src/components/editor/terminal.tsx):
 * a list of output lines and an input line; submitting echoes the command
 * and a placeholder output line.
 */
module Terminal {
  import opened Text

  /** The lines shown before anything is typed. */
  const InitialOutput: seq<string> := ["$ npm run dev", "Starting development server...", "✓ Ready on http://localhost:3000"]

  const PlaceholderOutput := "Command output..."

  /** Lines starting with '$' are drawn as commands (white). */
  predicate IsCommandLine(line: string)
  {
    |line| > 0 && line[0] == '$'
  }

  /** The two lines a submitted command adds: the command behind a prompt, and the placeholder. */
  function Echo(command: string): (lines: seq<string>)
    ensures |lines| == 2
    ensures IsCommandLine(lines[0]) && !IsCommandLine(lines[1])
    ensures |lines[0]| == |command| + 2 && lines[0][2..] == command
  {
    ["$ " + command, PlaceholderOutput]
  }

  /** Nothing counts as a command that is empty or white space only (`!input.trim()`). */
  predicate Blank(s: string)
  {
    forall i :: 0 <= i < |s| ==> JsIsSpace(s[i])
  }

  class Terminal {
    var output: seq<string>
    var input: string

    constructor ()
      ensures output == InitialOutput && input == ""
    {
      output := InitialOutput;
      input := "";
    }

    /** The input's `onChange`. */
    method SetInput(value: string)
      modifies this
      ensures input == value && output == old(output)
    {
      input := value;
    }

    /**
     * `handleSubmit`: a blank input changes nothing; otherwise the command,
     * untrimmed, is echoed after the existing lines and the input is cleared.
     */
    method Submit()
      modifies this
      ensures Blank(old(input)) ==> output == old(output) && input == old(input)
      ensures !Blank(old(input)) ==> output == old(output) + Echo(old(input)) && input == ""
      ensures old(output) <= output
    {
      JsTrimEmptyIffBlank(input);
      if JsTrim(input) == "" {
        return;
      }
      output := output + Echo(input);
      input := "";
    }
  }
}
