/** The options of `transmit.c` and which combinations it runs with. */
module Config {
  import opened Octets

  datatype Config = Config(useBeacon: bool, useBtl: bool, useBt4: bool, useBt5: bool,
                           useGps: bool, usePacks: bool, handleBt4: byte, handleBt5: byte)

  datatype Parsed = Proceed(config: Config) | ExitSuccess | ExitFailure

  /** Whether some argument behind the program's name starts with `c`. */
  predicate Chosen(argv: seq<string>, c: char) {
    exists i :: 1 <= i < |argv| && argv[i] != [] && argv[i][0] == c
  }

  predicate UsesBluetooth(c: Config) {
    c.useBtl || c.useBt4 || c.useBt5
  }

  /** The configurations `main` goes on with, and the advertising handles it gives them. */
  predicate Accepted(c: Config) {
    && !(c.useBtl && (c.useBt4 || c.useBt5))
    && !((c.useBtl || c.useBt4) && c.usePacks)
    && (c.useBeacon || UsesBluetooth(c))
    && c.handleBt4 == 0 && c.handleBt5 == 1
  }

  /** `parse_command_line`, followed by the two assignments at the start of `main`. */
  method ParseCommandLine(argv: seq<string>) returns (p: Parsed)
    ensures p.Proceed? ==> Accepted(p.config)
    ensures p.Proceed? ==>
              && p.config.useBeacon == Chosen(argv, 'b') && p.config.useBtl == Chosen(argv, 'l')
              && p.config.useBt4 == Chosen(argv, '4') && p.config.useBt5 == Chosen(argv, '5')
              && p.config.usePacks == Chosen(argv, 'p') && p.config.useGps == Chosen(argv, 'g')
    ensures p.ExitFailure? <==>
            || (Chosen(argv, 'l') && (Chosen(argv, '4') || Chosen(argv, '5')))
            || ((Chosen(argv, 'l') || Chosen(argv, '4')) && Chosen(argv, 'p'))
    ensures p.ExitSuccess? <==>
            !Chosen(argv, 'b') && !Chosen(argv, 'l') && !Chosen(argv, '4') && !Chosen(argv, '5')
  {
    if |argv| == 1 {
      return ExitSuccess;
    }
    var beacon, btl, bt4, bt5, packs, gps := false, false, false, false, false, false;
    var i := 1;
    while i < |argv|
      invariant |argv| >= 1 ==> 1 <= i <= |argv|
      invariant beacon <==> Chosen(argv[..if i <= |argv| then i else 0], 'b')
      invariant btl <==> Chosen(argv[..if i <= |argv| then i else 0], 'l')
      invariant bt4 <==> Chosen(argv[..if i <= |argv| then i else 0], '4')
      invariant bt5 <==> Chosen(argv[..if i <= |argv| then i else 0], '5')
      invariant packs <==> Chosen(argv[..if i <= |argv| then i else 0], 'p')
      invariant gps <==> Chosen(argv[..if i <= |argv| then i else 0], 'g')
    {
      ChosenStep(argv, i);
      if argv[i] != [] {
        match argv[i][0] {
          case 'b' => beacon := true;
          case 'l' => btl := true;
          case '4' => bt4 := true;
          case '5' => bt5 := true;
          case 'p' => packs := true;
          case 'g' => gps := true;
          case _ =>
        }
      }
      i := i + 1;
    }
    assert argv[..|argv|] == argv;
    if btl && (bt4 || bt5) {
      return ExitFailure;
    }
    if (btl || bt4) && packs {
      return ExitFailure;
    }
    if !beacon && !btl && !bt4 && !bt5 {
      return ExitSuccess;
    }
    return Proceed(Config(beacon, btl, bt4, bt5, gps, packs, 0, 1));
  }

  lemma ChosenStep(argv: seq<string>, i: nat)
    requires 1 <= i < |argv|
    ensures forall c :: Chosen(argv[..i + 1], c) <==>
                        Chosen(argv[..i], c) || (argv[i] != [] && argv[i][0] == c)
  {
    forall c
      ensures Chosen(argv[..i + 1], c) <==>
              Chosen(argv[..i], c) || (argv[i] != [] && argv[i][0] == c)
    {
      if Chosen(argv[..i], c) {
        var k :| 1 <= k < i && argv[..i][k] != [] && argv[..i][k][0] == c;
        assert argv[..i + 1][k] == argv[k];
      }
      assert argv[..i + 1][i] == argv[i];
    }
  }
}
