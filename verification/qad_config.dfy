/**
 * The configuration of the QA daemon `amg-qad`
 * (tools/amg-qad/internal/config/config.go): the daily test time, the
 * dashboard port and the results directory, checked in that order.
 */
module QadConfig {
  import opened Wrappers
  import opened Strings

  datatype Config = Config(testTime: string, webPort: int, resultsPath: string)

  /**
   * The test-time pattern `^([01]?[0-9]|2[0-3]):[0-5][0-9]$`, written out
   * position by position: one hour digit, or `0`-`1` and a digit, or `2` and
   * `0`-`3`; a colon; a minute tens digit `0`-`5` and a digit. Go's `$`
   * matches only at the end of the text.
   */
  predicate ClockText(t: string) {
    (|t| == 4 && IsDigit(t[0]) && t[1] == ':' && '0' <= t[2] <= '5' && IsDigit(t[3]))
    || (|t| == 5
        && (((t[0] == '0' || t[0] == '1') && IsDigit(t[1])) || (t[0] == '2' && '0' <= t[1] <= '3'))
        && t[2] == ':' && '0' <= t[3] <= '5' && IsDigit(t[4]))
  }

  /** The hour part of a clock text: everything before the last three characters. */
  function HourText(t: string): string
    requires |t| >= 3
  {
    t[..|t| - 3]
  }

  /** The minute part of a clock text: the last two characters. */
  function MinuteText(t: string): string
    requires |t| >= 3
  {
    t[|t| - 2..]
  }

  /** The value of a two-digit text. */
  lemma DigitsValueTwo(s: string)
    requires |s| == 2 && IsDigit(s[0]) && IsDigit(s[1])
    ensures DigitsValue(s) == (s[0] as int - '0' as int) * 10 + (s[1] as int - '0' as int)
  {
    assert s[..1] == [s[0]];
    DigitsValueOne(s[..1]);
  }

  /** The value of a one-digit text. */
  lemma DigitsValueOne(s: string)
    requires |s| == 1 && IsDigit(s[0])
    ensures DigitsValue(s) == s[0] as int - '0' as int
  {
    assert s[..0] == [];
  }

  /**
   * What the pattern means: one or two hour digits worth at most 23, a colon,
   * and two minute digits worth at most 59.
   */
  lemma ClockTextMeans(t: string)
    ensures ClockText(t) <==>
      (|t| == 4 || |t| == 5) && t[|t| - 3] == ':'
      && AllDigits(HourText(t)) && DigitsValue(HourText(t)) <= 23
      && AllDigits(MinuteText(t)) && DigitsValue(MinuteText(t)) <= 59
  {
    if |t| == 4 || |t| == 5 {
      var h := HourText(t);
      var m := MinuteText(t);
      assert m[0] == t[|t| - 2] && m[1] == t[|t| - 1];
      if AllDigits(m) {
        DigitsValueTwo(m);
      }
      if |t| == 4 {
        assert h == [t[0]];
        if AllDigits(h) {
          DigitsValueOne(h);
        }
      } else {
        assert h == [t[0], t[1]];
        if AllDigits(h) {
          DigitsValueTwo(h);
        }
      }
    }
  }

  const PortMax: int := 65535

  /** `Config.Validate`: the test time, then the port, then the results path; the first failure is reported. */
  function Validate(c: Config): (r: Outcome)
    ensures r.Pass? <==> ClockText(c.testTime) && 1 <= c.webPort <= PortMax && c.resultsPath != ""
  {
    if !ClockText(c.testTime) then Fail("invalid test_time format '" + c.testTime + "', expected HH:MM")
    else if c.webPort < 1 || c.webPort > PortMax then
      Fail("invalid web_port " + IntToString(c.webPort) + ", must be between 1-65535")
    else if c.resultsPath == "" then Fail("results_path cannot be empty")
    else Pass
  }

  /** A bad test time is reported whatever else is wrong, and a bad port before an empty path. */
  lemma ValidateOrder(c: Config)
    ensures !ClockText(c.testTime) ==>
      Validate(c) == Fail("invalid test_time format '" + c.testTime + "', expected HH:MM")
    ensures ClockText(c.testTime) && !(1 <= c.webPort <= PortMax) ==>
      Validate(c) == Fail("invalid web_port " + IntToString(c.webPort) + ", must be between 1-65535")
  {
  }

  /** `LoadConfig`: what viper unmarshals is the input `unmarshalled`. */
  function LoadConfig(unmarshalled: Result<Config>): (r: Result<Config>)
    ensures r.Ok? <==> unmarshalled.Ok? && Validate(unmarshalled.value).Pass?
    ensures r.Ok? ==> r.value == unmarshalled.value
  {
    if unmarshalled.Err? then Err("failed to unmarshal config: " + unmarshalled.error)
    else if Validate(unmarshalled.value).Fail? then
      Err("invalid configuration: " + Validate(unmarshalled.value).error)
    else Ok(unmarshalled.value)
  }

  /** A loaded configuration always passes validation, so its time, port and path are usable. */
  lemma LoadedConfigValid(unmarshalled: Result<Config>)
    ensures var r := LoadConfig(unmarshalled);
      r.Ok? ==> ClockText(r.value.testTime) && 1 <= r.value.webPort <= PortMax && r.value.resultsPath != ""
  {
  }
}
