/**
 * The subprocess helper `_run` that the download, env and run stages each
 * define: it runs one command line and reports its exit code and output,
 * never raising.  What the operating system does with a command line is the
 * function `exec`; the shell records every command it was asked to run.
 */
module Shell {
  import opened PipelineState

  class Shell {
    /** The command lines run so far, in order. */
    var log: seq<seq<string>>
    /** What running a command line does on this host. */
    const exec: seq<string> -> Proc

    constructor (exec: seq<string> -> Proc)
      ensures log == [] && this.exec == exec
    {
      log := [];
      this.exec := exec;
    }

    /**
     * `_run(cmd)`: a command that could not be started or timed out comes
     * back as exit code 1 with the exception text on stderr.
     */
    method Run(cmd: seq<string>) returns (r: ExecResult)
      modifies this
      ensures r == RunCommand(exec(cmd))
      ensures exec(cmd).Raised? ==> r.code == 1 && r.out == ""
      ensures log == old(log) + [cmd]
    {
      r := RunCommand(exec(cmd));
      log := log + [cmd];
    }
  }
}
