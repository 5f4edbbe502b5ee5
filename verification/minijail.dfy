/** `services/minijail/minijail.cpp`: the seccomp policy text handed to
    minijail through a pipe. The system calls (`pipe`, the write, the close
    of the write end) are not modelled; their outcomes are inputs. */
module Minijail {

  datatype Option<T> = None | Some(value: T)

  /** What `pipe()` returned: failure, or the read and write ends. */
  datatype PipeOutcome = PipeFailed | Opened(readEnd: nat, writeEnd: nat)

  /** The warning `SetUpMinijail` logs. */
  const kNoPolicyWarning: string := "No seccomp policy defined for this architecture."

  /** The policy text written to the pipe: the base policy, followed by a
      newline and the additional policy when there is one. */
  function PolicyContent(base: string, additional: string): (content: string)
    ensures base <= content
    ensures additional == [] ==> content == base
    ensures additional != [] ==> content == base + "\n" + additional
    ensures |content| == if additional == [] then |base| else |base| + 1 + |additional|
  {
    if |additional| > 0 then base + "\n" + additional else base
  }

  /** Reads the additional policy back out of a written policy text. */
  function AdditionalOf(base: string, content: string): string
  {
    if |content| <= |base| + 1 then [] else content[|base| + 1..]
  }

  /** The written text determines the additional policy: nothing is lost by
      joining the two policies. */
  lemma AdditionalRoundTrip(base: string, additional: string)
    ensures AdditionalOf(base, PolicyContent(base, additional)) == additional
  {
  }

  /** Two different additional policies never produce the same text. */
  lemma PolicyContentInjective(base: string, a1: string, a2: string)
    requires PolicyContent(base, a1) == PolicyContent(base, a2)
    ensures a1 == a2
  {
    AdditionalRoundTrip(base, a1);
    AdditionalRoundTrip(base, a2);
  }

  /** `WritePolicyToPipe`: returns the read end of a pipe holding the policy
      text, or -1. `written` is the text handed to the write, `None` when no
      write was attempted. */
  method WritePolicyToPipe(basePolicyContent: string, additionalPolicyContent: string,
                           pipe: PipeOutcome, writeSucceeds: bool)
    returns (fd: int, written: Option<string>)
    ensures pipe.PipeFailed? ==> fd == -1 && written == None
    ensures pipe.Opened? ==> written == Some(PolicyContent(basePolicyContent, additionalPolicyContent))
    ensures pipe.Opened? && !writeSucceeds ==> fd == -1
    ensures pipe.Opened? && writeSucceeds ==> fd == pipe.readEnd
    ensures pipe.Opened? && pipe.readEnd != pipe.writeEnd ==> fd != pipe.writeEnd
    ensures fd == -1 || (pipe.Opened? && writeSucceeds)
  {
    if pipe.PipeFailed? {
      return -1, None;
    }
    var content := basePolicyContent;
    if |additionalPolicyContent| > 0 {
      content := content + "\n";
      content := content + additionalPolicyContent;
    }
    written := Some(content);
    if !writeSucceeds {
      return -1, written;
    }
    return pipe.readEnd, written;
  }

  /** `SetUpMinijail`: installs no policy on this architecture; its only
      effect is the warning it logs, whatever the two paths are. */
  method SetUpMinijail(basePolicyPath: string, additionalPolicyPath: string)
    returns (warning: string)
    ensures warning == kNoPolicyWarning
  {
    warning := kNoPolicyWarning;
  }
}
