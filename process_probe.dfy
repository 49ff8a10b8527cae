/**
 * What the front-end can observe of a short external command it runs to probe
 * for a tool (`Process.Start`, `WaitForExit(timeout)`, `ExitCode`, standard
 * output). The commands themselves are not run by the model: their outcomes
 * are inputs.
 */
module ProcessProbe {

  datatype CommandOutcome =
      /** `Process.Start` threw (no such executable, ...) or reading `ExitCode` threw
          because the command was still running when the timeout ran out. */
    | Threw
      /** `Process.Start` returned null. */
    | NoProcess
      /** The command exited in time with this code and printed this text. */
    | Exited(exitCode: int, standardOutput: string)

  /** The probe counts as a success: the command exited with code 0. */
  predicate ExitedWithZero(o: CommandOutcome) {
    o.Exited? && o.exitCode == 0
  }
}
