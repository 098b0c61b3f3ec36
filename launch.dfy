/** The hand-off in `main` from the command line to the viewer: the
    `--max-iters` value the argument loop stores into `params` is the
    iteration count the event loop starts from. */
module Launch {
  import ViewControl
  import CommandLine

  /** `params` as the event loop first sees it: the field initialisers,
      with the iteration count the command line chose. */
  function StartParams(t: CommandLine.Settings): ViewControl.Params {
    ViewControl.Initial().(maxIterations := t.maxIterations)
  }

  /** Every accepted command line starts the viewer in a valid state, and
      every sequence of events keeps it valid. */
  lemma AcceptedCommandLineStartsValid(argv: seq<string>, parseInt: string -> int,
                                       events: seq<ViewControl.Event>, win: ViewControl.WindowSize)
    requires win.NonEmpty()
    requires CommandLine.ParseCommandLine(argv, parseInt).Ok?
    ensures var p := StartParams(CommandLine.ParseCommandLine(argv, parseInt).settings);
      p.Valid() && ViewControl.Run(p, events, win).Valid()
  {
    CommandLine.AcceptedCommandLineInRange(argv, parseInt);
  }
}
