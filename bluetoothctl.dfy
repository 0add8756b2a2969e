/**
 * The `bluetoothctl` wrapper of bluetoothctl.py: commands are written to
 * the tool and its replies are matched against expected patterns; the
 * listings and the device information it prints are parsed.
 *
 * The child process is the outside world: each command sent is logged,
 * and what `expect` found, with the text printed before it, is a
 * parameter.
 */
module Bluetoothctl {
  import opened Values
  import opened Strings

  /** What `expect` found: end of file, a timeout, or the `k`-th pattern
      after end of file (one of the required replies, or the prompt
      `#`). */
  datatype Expect = Eof | TimedOut | Pattern(k: nat)

  /** What `execute_command` returns: the index of the reply matched
      among the required ones, the lines printed before the prompt, or the
      empty string it returns for every failure. */
  datatype CommandOut = Index(i: nat) | Lines(lines: seq<string>) | Empty

  /** A device of a listing: `{'mac_address': ..., 'name': ...}`. */
  datatype DeviceInfo = DeviceInfo(mac: string, name: string)

  /** Every character is ASCII, so `decode('ascii')` does not raise. */
  predicate Ascii(s: string)
  {
    forall i :: 0 <= i < |s| ==> s[i] as int < 128
  }

  /** `execute_command`: end of file raises inside the `try` and a timeout
      raises from `expect`; the bare `except` turns both into `''`. With
      required replies the result is the index of the one matched, without
      them the printed text split into lines; a non-ASCII character in that
      text makes `decode('ascii')` raise, which the bare `except` also turns
      into `''`. */
  function Execute(requires_: seq<string>, found: Expect, before: string): (r: CommandOut)
    ensures found.Eof? || found.TimedOut? ==> r == Empty
    ensures found.Pattern? && requires_ != [] ==> r == Index(found.k)
    ensures found.Pattern? && requires_ == [] && !Ascii(before) ==> r == Empty
    ensures found.Pattern? && requires_ == [] && Ascii(before) ==> r.Lines? && r.lines != [] && JoinLines(r.lines) == before
  {
    if !found.Pattern? then Empty
    else if requires_ != [] then Index(found.k)
    else if !Ascii(before) then Empty
    else Lines(SplitLines(before))
  }

  /** `"\r\n".join(lines)`. */
  function JoinLines(lines: seq<string>): string
    requires lines != []
  {
    if |lines| == 1 then lines[0] else lines[0] + "\r\n" + JoinLines(lines[1..])
  }

  /** `before.split("\r\n")`: the text is cut at each two-character
      separator only, so a bare `\n` or `\r` stays inside its line, and
      joining the lines again gives the text back. */
  function SplitLines(s: string): (r: seq<string>)
    ensures r != [] && JoinLines(r) == s
    ensures '\r' !in s ==> r == [s]
    decreases |s|
  {
    if |s| < 2 then [s]
    else if s[0] == '\r' && s[1] == '\n' then
      var rest := SplitLines(s[2..]);
      assert JoinLines([""] + rest) == "" + "\r\n" + JoinLines(rest);
      assert s == "\r\n" + s[2..];
      [""] + rest
    else
      var rest := SplitLines(s[1..]);
      JoinFirst(s[0], rest);
      assert '\r' !in s ==> '\r' !in s[1..];
      assert s == [s[0]] + s[1..];
      [[s[0]] + rest[0]] + rest[1..]
  }

  /** A character put in front of the first line is put in front of the
      joined text. */
  lemma JoinFirst(c: char, lines: seq<string>)
    requires lines != []
    ensures JoinLines([[c] + lines[0]] + lines[1..]) == [c] + JoinLines(lines)
  {
    var l := [[c] + lines[0]] + lines[1..];
    assert l[1..] == lines[1..];
    if |lines| > 1 {
      assert JoinLines(l) == [c] + lines[0] + "\r\n" + JoinLines(lines[1..]);
    }
  }

  /** A bare `\n` does not end a line. */
  lemma NewlineStaysInLine()
    ensures SplitLines("a\nb") == ["a\nb"]
  {
  }

  /** The answer of `trust`, `pair`, `remove`, `connect` and
      `disconnect`: `res == 0`, true only when the first required reply
      matched; a failure's `''` is not 0. */
  function Confirmed(out: CommandOut): (r: bool)
    ensures r <==> out == Index(0)
  {
    out.Index? && out.i == 0
  }

  // ---------------------------------------------------------------- listings

  const ESCAPE: string := "[\U{1b}[0;"

  /** `parse_device_info`: a line mentioning the escape sequence or
      `removed`, or without `Device`, gives `{}` (`None`); otherwise the
      text from `Device` on is split on `' '` at most twice, the MAC address
      being the second piece and the name the rest. Fewer than three pieces
      raise `IndexError`, outside the `try`. */
  function ParseDeviceInfo(line: string): (r: Result<Option<DeviceInfo>, PyError>)
    ensures Contains(line, ESCAPE) || Contains(line, "removed") || !Contains(line, "Device") ==> r == Ok(None)
    ensures r.Err? ==> r.error == IndexError
  {
    if Contains(line, ESCAPE) || Contains(line, "removed") then Ok(None)
    else
      match IndexOf(line, "Device")
      case None => Ok(None)
      case Some(i) =>
        match SplitThree(line[i..], ' ')
        case None => Err(IndexError)
        case Some((word, mac, name)) => Ok(Some(DeviceInfo(mac, name)))
  }

  /** The separator follows the word it ends. */
  lemma SpaceAfter(word: string, rest: string)
    ensures (word + [' '] + rest)[|word|] == ' '
  {
  }

  /** A parsed device comes from the text from the first `Device` on: a
      word starting with `Device`, the space-free MAC address and the name,
      separated by single spaces. Too few spaces raise `IndexError`. */
  lemma ParseDeviceInfoShape(line: string)
    ensures var r := ParseDeviceInfo(line);
            r.Ok? && r.value.Some? ==>
              ' ' !in r.value.value.mac
              && exists word :: StartsWith(word, "Device") && ' ' !in word
                   && line[IndexOf(line, "Device").value..] == word + [' '] + r.value.value.mac + [' '] + r.value.value.name
    ensures var r := ParseDeviceInfo(line);
            r.Err? <==> !Contains(line, ESCAPE) && !Contains(line, "removed") && Contains(line, "Device")
                        && Count(line[IndexOf(line, "Device").value..], ' ') < 2
  {
    var r := ParseDeviceInfo(line);
    if r.Ok? && r.value.Some? {
      var i := IndexOf(line, "Device").value;
      var (word, mac, name) := SplitThree(line[i..], ' ').value;
      DevicePrefix(line, i, word, mac + [' '] + name);
      assert line[i..] == word + [' '] + mac + [' '] + name;
    }
  }

  /** The first piece of the split is the word that starts with
      `Device`: a space inside `Device` is impossible. */
  lemma DevicePrefix(line: string, i: nat, word: string, rest: string)
    requires OccursAt(line, "Device", i)
    requires line[i..] == word + [' '] + rest && ' ' !in word
    ensures StartsWith(word, "Device")
  {
    var t := line[i..];
    assert t[..6] == "Device";
    if |word| >= 6 {
      assert word[..6] == t[..6];
    } else {
      SpaceAfter(word, rest);
      assert false;
    }
  }

  /** The devices a listing yields: the non-empty parsed entries in line
      order; the first line that raises makes the whole listing raise. */
  function Devices(lines: seq<string>): (r: Result<seq<DeviceInfo>, PyError>)
    ensures r.Ok? ==> |r.value| <= |lines|
    decreases |lines|
  {
    if lines == [] then Ok([]) else Prepend(ParseDeviceInfo(lines[0]), Devices(lines[1..]))
  }

  /** The devices of a suffix of a listing, one line at a time. */
  lemma DevicesStep(lines: seq<string>, i: nat)
    requires i < |lines|
    ensures Devices(lines[i..]) == Prepend(ParseDeviceInfo(lines[i]), Devices(lines[i + 1..]))
  {
    assert lines[i..][1..] == lines[i + 1..];
    assert lines[i..][0] == lines[i];
  }

  /** Every device listed comes from a line, and every line naming a
      device contributes it. */
  lemma {:induction false} DevicesFromLines(lines: seq<string>)
    requires Devices(lines).Ok?
    ensures forall d :: d in Devices(lines).value <==>
              exists i :: 0 <= i < |lines| && ParseDeviceInfo(lines[i]) == Ok(Some(d))
    decreases |lines|
  {
    if lines != [] {
      DevicesFromLines(lines[1..]);
      forall d | exists i :: 0 <= i < |lines| && ParseDeviceInfo(lines[i]) == Ok(Some(d))
        ensures d in Devices(lines).value
      {
        var i :| 0 <= i < |lines| && ParseDeviceInfo(lines[i]) == Ok(Some(d));
        if i > 0 {
          assert lines[1..][i - 1] == lines[i];
        }
      }
      forall d | d in Devices(lines).value
        ensures exists i :: 0 <= i < |lines| && ParseDeviceInfo(lines[i]) == Ok(Some(d))
      {
        var first := ParseDeviceInfo(lines[0]);
        if first.value.Some? && d == first.value.value {
          assert ParseDeviceInfo(lines[0]) == Ok(Some(d));
        } else {
          var j :| 0 <= j < |lines[1..]| && ParseDeviceInfo(lines[1..][j]) == Ok(Some(d));
          assert ParseDeviceInfo(lines[j + 1]) == Ok(Some(d));
        }
      }
    }
  }

  /** `get_discoverable_devices`: the available devices that are not
      paired, in the available order. */
  function Discoverable(available: seq<DeviceInfo>, paired: seq<DeviceInfo>): (r: seq<DeviceInfo>)
    ensures |r| <= |available|
  {
    if available == [] then []
    else (if available[0] !in paired then [available[0]] else []) + Discoverable(available[1..], paired)
  }

  /** The discoverable devices are exactly the available ones that are
      not paired. */
  lemma {:induction false} DiscoverableMembers(available: seq<DeviceInfo>, paired: seq<DeviceInfo>)
    ensures forall d :: d in Discoverable(available, paired) <==> d in available && d !in paired
    decreases |available|
  {
    if available != [] {
      DiscoverableMembers(available[1..], paired);
      assert available == [available[0]] + available[1..];
    }
  }

  /** Discoverable devices keep the available order: the filter
      distributes over concatenation, and nothing is taken out when
      nothing is paired. */
  lemma {:induction false} DiscoverableKeepsOrder(a: seq<DeviceInfo>, b: seq<DeviceInfo>, paired: seq<DeviceInfo>)
    ensures Discoverable(a + b, paired) == Discoverable(a, paired) + Discoverable(b, paired)
    ensures paired == [] ==> Discoverable(a, paired) == a
    decreases |a|
  {
    if a != [] {
      DiscoverableKeepsOrder(a[1..], b, paired);
      var h := if a[0] !in paired then [a[0]] else [];
      calc {
        Discoverable(a + b, paired);
      == { assert (a + b)[0] == a[0] && (a + b)[1..] == a[1..] + b; }
        h + Discoverable(a[1..] + b, paired);
      ==
        h + (Discoverable(a[1..], paired) + Discoverable(b, paired));
      == { Associative(h, Discoverable(a[1..], paired), Discoverable(b, paired)); }
        Discoverable(a, paired) + Discoverable(b, paired);
      }
      if paired == [] {
        assert a == [a[0]] + a[1..];
      }
    } else {
      assert a + b == b;
    }
  }

  // ---------------------------------------------------------------- info

  /** One line of `info` output folded into the result: the line is
      stripped and its tabs removed; only a line with exactly one `:` and
      a space-free key counts. A second occurrence of a key makes its
      value a list of both; a third finds the list and overwrites it with
      a string. */
  function Fold(res: map<string, Value>, x: string): (r: map<string, Value>)
    ensures InfoPair(x).None? ==> r == res
    ensures InfoPair(x).Some? ==> r.Keys == res.Keys + {InfoPair(x).value.0}
  {
    var p := InfoPair(x);
    if p.None? then res
    else
      var key := p.value.0;
      var v := if key in res && !res[key].VList? then VList([res[key], VStr(p.value.1)]) else VStr(p.value.1);
      res[key := v]
  }

  /** The key and stripped value of an `info` line, when it has them. */
  function InfoPair(x: string): (r: Option<(string, string)>)
    ensures r.Some? ==> ' ' !in r.value.0 && ':' !in r.value.0
  {
    var k := Split(Remove(Strip(x), '\t'), ':');
    if |k| != 2 || ' ' in k[0] then None else Some((k[0], Strip(k[1])))
  }

  /** The lines of a reply; a failure's `''` has none. */
  function LinesOf(out: CommandOut): seq<string>
  {
    if out.Lines? then out.lines else []
  }

  /** `'Device' in out`: a line of the reply is exactly `Device`. */
  predicate Found(out: CommandOut)
  {
    out.Lines? && "Device" in out.lines
  }

  /** The same command sent `n` times. */
  function Repeat(command: string, n: nat): (r: seq<string>)
    ensures |r| == n && forall i :: 0 <= i < n ==> r[i] == command
  {
    if n == 0 then [] else Repeat(command, n - 1) + [command]
  }

  /** `get_device_info`'s result from the lines of the last reply. */
  function Info(lines: seq<string>): (r: map<string, Value>)
    ensures lines == [] ==> r == map[]
    ensures forall k :: k in r ==> ' ' !in k && ':' !in k
    ensures forall k :: k in r ==> exists i :: 0 <= i < |lines| && InfoPair(lines[i]).Some? && InfoPair(lines[i]).value.0 == k
    decreases |lines|
  {
    if lines == [] then map[] else Fold(Info(lines[..|lines| - 1]), lines[|lines| - 1])
  }

  /** Folding one more line extends the fold of the prefix. */
  lemma InfoStep(lines: seq<string>, i: nat)
    requires i < |lines|
    ensures Info(lines[..i + 1]) == Fold(Info(lines[..i]), lines[i])
  {
    assert lines[..i + 1][..i] == lines[..i];
  }

  /** A key met once holds its value, met twice the list of both values,
      met three times the third value alone. */
  lemma FoldRepeats(key: string, a: string, b: string, c: string)
    requires ' ' !in key && ':' !in key && key != [] && !IsSpace(key[0]) && '\t' !in key
    requires ':' !in a && ':' !in b && ':' !in c && '\t' !in a && '\t' !in b && '\t' !in c
    requires a != [] && b != [] && c != []
    requires !IsSpace(a[|a| - 1]) && !IsSpace(b[|b| - 1]) && !IsSpace(c[|c| - 1])
    ensures var m1 := Fold(map[], key + ":" + a);
            var m2 := Fold(m1, key + ":" + b);
            var m3 := Fold(m2, key + ":" + c);
            key in m1 && key in m2 && key in m3
            && m1[key] == VStr(Strip(a)) && m2[key] == VList([VStr(Strip(a)), VStr(Strip(b))])
            && m3[key] == VStr(Strip(c))
  {
    InfoLine(key, a);
    InfoLine(key, b);
    InfoLine(key, c);
  }

  /** A `key:value` line, already stripped and tab-free, splits into its
      key and value. */
  lemma InfoLine(key: string, v: string)
    requires ' ' !in key && ':' !in key && ':' !in v && '\t' !in key && '\t' !in v
    requires key != [] && !IsSpace(key[0]) && v != [] && !IsSpace(v[|v| - 1])
    ensures InfoPair(key + ":" + v) == Some((key, Strip(v)))
  {
    var x := key + ":" + v;
    CleanLine(key, v);
    JoinPair(key, v);
    SplitJoin([key, v], ':');
    assert Split(x, ':') == [key, v];
  }

  /** Such a line is left alone by stripping and by removing tabs. */
  lemma CleanLine(key: string, v: string)
    requires '\t' !in key && '\t' !in v
    requires key != [] && !IsSpace(key[0]) && v != [] && !IsSpace(v[|v| - 1])
    ensures Remove(Strip(key + ":" + v), '\t') == key + ":" + v
  {
    var x := key + ":" + v;
    assert x[0] == key[0] && x[|x| - 1] == v[|v| - 1];
    assert Strip(x) == x;
    assert '\t' !in x by {
      assert forall i :: 0 <= i < |x| ==> x[i] == (if i < |key| then key[i] else if i == |key| then ':' else v[i - |key| - 1]);
    }
    RemoveAbsent(x, '\t');
  }

  /** Two pieces joined by `:`. */
  lemma JoinPair(key: string, v: string)
    ensures Join([key, v], ':') == key + ":" + v
  {
    assert [key, v][1..] == [v];
  }

  /** Removing a character that does not occur changes nothing. */
  lemma {:induction false} RemoveAbsent(s: string, c: char)
    requires c !in s
    ensures Remove(s, c) == s
    decreases |s|
  {
    if s != [] {
      RemoveAbsent(s[1..], c);
      assert s == [s[0]] + s[1..];
    }
  }

  /** The `bluetoothctl` child process, reduced to the commands written to
      it. */
  class Bluetoothctl {
    var sent: seq<string>

    constructor ()
      ensures sent == []
    {
      sent := [];
    }

    /** `execute_command(command, requires)`: the command is written, and
        the reply classified. */
    method ExecuteCommand(command: string, requires_: seq<string>, found: Expect, before: string)
      returns (out: CommandOut)
      modifies this
      ensures sent == old(sent) + [command]
      ensures out == Execute(requires_, found, before)
    {
      sent := sent + [command];
      if !found.Pattern? {
        return Empty;
      }
      if requires_ != [] {
        return Index(found.k);
      }
      out := if Ascii(before) then Lines(SplitLines(before)) else Empty;
    }

    /** `get_available_devices` (`devices`) or `get_paired_devices`
        (`paired-devices`): the listing's lines parsed in order; a failed
        command yields `''`, which has no lines. */
    method ListDevices(command: string, found: Expect, before: string)
      returns (r: Result<seq<DeviceInfo>, PyError>)
      modifies this
      ensures sent == old(sent) + [command]
      ensures r == Devices(LinesOf(Execute([], found, before)))
    {
      var out := ExecuteCommand(command, [], found, before);
      r := ParseListing(LinesOf(out));
    }

    /** The lines of a listing parsed in order, the first failure
        propagating. */
    static method ParseListing(lines: seq<string>) returns (r: Result<seq<DeviceInfo>, PyError>)
      ensures r == Devices(lines)
    {
      var devices: seq<DeviceInfo> := [];
      var i := 0;
      while i < |lines|
        invariant 0 <= i <= |lines|
        invariant Devices(lines).Ok? ==> Devices(lines[i..]).Ok? && devices + Devices(lines[i..]).value == Devices(lines).value
        invariant Devices(lines).Err? ==> Devices(lines[i..]) == Devices(lines)
      {
        DevicesStep(lines, i);
        var d := ParseDeviceInfo(lines[i]);
        if d.Err? {
          return Err(d.error);
        }
        if d.value.Some? {
          if Devices(lines[i + 1..]).Ok? {
            Associative(devices, [d.value.value], Devices(lines[i + 1..]).value);
          }
          devices := devices + [d.value.value];
        }
        i := i + 1;
      }
      assert lines[i..] == [];
      assert Devices(lines).Ok?;
      assert devices == Devices(lines).value;
      r := Ok(devices);
    }

    /** `get_discoverable_devices`: both listings, then the available ones
        not paired; a raising first listing ends it before `paired-devices`
        is sent. */
    method GetDiscoverableDevices(found1: Expect, before1: string, found2: Expect, before2: string)
      returns (r: Result<seq<DeviceInfo>, PyError>)
      modifies this
      ensures var available := Devices(LinesOf(Execute([], found1, before1)));
              var paired := Devices(LinesOf(Execute([], found2, before2)));
              sent == old(sent) + ["devices"] + (if available.Ok? then ["paired-devices"] else [])
              && r == if available.Err? then available
                      else if paired.Err? then paired
                      else Ok(Discoverable(available.value, paired.value))
    {
      var available := ListDevices("devices", found1, before1);
      if available.Err? {
        assert old(sent) + ["devices"] + [] == old(sent) + ["devices"];
        return available;
      }
      var paired := ListDevices("paired-devices", found2, before2);
      if paired.Err? {
        return paired;
      }
      r := Ok(Discoverable(available.value, paired.value));
    }

    /** `get_device_info`: `info <mac>` is sent up to three times,
        stopping early only when a line of the reply is exactly `Device`;
        the last reply's lines are folded into the result. */
    method GetDeviceInfo(mac: string, replies: seq<(Expect, string)>) returns (res: map<string, Value>, tries: nat)
      requires |replies| == 3
      modifies this
      ensures 1 <= tries <= 3 && sent == old(sent) + Repeat("info " + mac, tries)
      ensures forall t :: 0 <= t < tries - 1 ==> Found(Execute([], replies[t].0, replies[t].1)) == false
      ensures tries < 3 ==> Found(Execute([], replies[tries - 1].0, replies[tries - 1].1))
      ensures res == Info(LinesOf(Execute([], replies[tries - 1].0, replies[tries - 1].1)))
    {
      ghost var sent0 := sent;
      var out := ExecuteCommand("info " + mac, [], replies[0].0, replies[0].1);
      tries := 1;
      while tries < 3 && !Found(out)
        invariant 1 <= tries <= 3
        invariant sent == sent0 + Repeat("info " + mac, tries)
        invariant out == Execute([], replies[tries - 1].0, replies[tries - 1].1)
        invariant forall t :: 0 <= t < tries - 1 ==> Found(Execute([], replies[t].0, replies[t].1)) == false
      {
        Associative(sent0, Repeat("info " + mac, tries), ["info " + mac]);
        out := ExecuteCommand("info " + mac, [], replies[tries].0, replies[tries].1);
        tries := tries + 1;
      }
      res := FoldLines(LinesOf(out));
    }

    /** Folds the lines of a reply into the device information. */
    static method FoldLines(lines: seq<string>) returns (res: map<string, Value>)
      ensures res == Info(lines)
    {
      res := map[];
      var i := 0;
      while i < |lines|
        invariant 0 <= i <= |lines|
        invariant res == Info(lines[..i])
      {
        InfoStep(lines, i);
        res := Fold(res, lines[i]);
        i := i + 1;
      }
      assert lines[..i] == lines;
    }

    /** `start_scan` (`scan on`), `stop_scan` (`scan off`) and
        `make_discoverable` (`discoverable on`): the command is sent and
        its reply ignored. */
    method Switch(command: string, found: Expect, before: string)
      requires command in ["scan on", "scan off", "discoverable on"]
      modifies this
      ensures sent == old(sent) + [command]
    {
      var out := ExecuteCommand(command, [], found, before);
    }

    /** `trust`, `pair`, `remove`, `connect` and `disconnect`: the command
        and its answer, true only when the first required reply matched. */
    method Confirm(command: string, mac: string, requires_: seq<string>, found: Expect) returns (ok: bool)
      requires requires_ != []
      modifies this
      ensures sent == old(sent) + [command + " " + mac]
      ensures ok <==> found == Pattern(0)
    {
      var out := ExecuteCommand(command + " " + mac, requires_, found, "");
      ok := Confirmed(out);
    }
  }
}
