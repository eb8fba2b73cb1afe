/** What the receivers of file-log and Windows sources read, and where they start. */
module OtelReceivers {
  import opened OtelModel
  import opened Text
  import OtelProperties
  import Sorting

  lemma {:induction false} NonBlankMembers(s: seq<string>, t: string)
    ensures t in NonBlank(s) <==> t != "" && exists i :: 0 <= i < |s| && Trim(s[i]) == t
  {
    hide Trim;
    if s != [] { NonBlankMembers(s[1..], t); }
  }

  lemma {:induction false} DedupeMembers(s: seq<string>)
    ensures forall t :: t in Dedupe(s) <==> t in s
    ensures forall i, j :: 0 <= i < j < |Dedupe(s)| ==> Dedupe(s)[i] != Dedupe(s)[j]
  {
    if s != [] { DedupeMembers(s[1..]); }
  }

  /** In order, without repeats. */
  ghost predicate Ascending(s: seq<string>) {
    forall i, j :: 0 <= i < j < |s| ==> Leq(s[i], s[j]) && s[i] != s[j]
  }

  /** Exactly the trimmed texts of `given` that are not blank. */
  ghost predicate Trims(s: seq<string>, given: seq<string>) {
    forall t :: t in s <==> t != "" && exists i :: 0 <= i < |given| && Trim(given[i]) == t
  }

  /** The lists of paths and channels: each text once, trimmed, in order. */
  lemma DedupedIs(given: seq<string>)
    ensures Ascending(DedupeSorted(given)) && Trims(DedupeSorted(given), given)
  {
    hide Trim, Leq;
    var d := Dedupe(NonBlank(given));
    DedupeMembers(NonBlank(given));
    Sorting.SortStringsSorts(d);
    var s := Sorting.SortStrings(d);
    OtelProperties.DistinctPermutation(d, s);
    forall t ensures t in s <==> t != "" && exists i :: 0 <= i < |given| && Trim(given[i]) == t {
      Sorting.SameMembers(s, d, t);
      NonBlankMembers(given, t);
    }
  }

  predicate Names(c: Config, key: string, v: Value) {
    key in c && c[key] == v
  }

  lemma NamesApart()
    ensures "include" !in ["path", "paths", "log_path", "log_paths", "start_at", "storage", "retry_on_failure", "include_file_path", "include_file_name"]
    ensures "start_at" !in ["include", "path", "paths", "log_path", "log_paths", "storage", "retry_on_failure", "include_file_path", "include_file_name"]
  {
    assert |"include"| == 7 && "storage"[0] == 's' && "include"[0] == 'i' && |"start_at"| == 8 && "start_at"[0] == 's' && "log_path"[0] == 'l';
  }

  /** A file-log source whose recipe lists paths reads exactly those, trimmed, each once and in order; without a path that
      is not blank it does not compile. It starts at the end unless the recipe says otherwise. */
  lemma FileLogReads(s: Source, r: Recipe, storageID: string, given: seq<string>)
    requires "include" in r.config && r.config["include"] == Strs(given) && given != []
    ensures var result := FileLog(s, r, storageID);
            && (result.Err? <==> forall i :: 0 <= i < |given| ==> Blank(given[i]))
            && (result.Ok? ==> |result.value| == 1 && exists paths :: ReadsPaths(result.value[0].config, r, given, paths))
  {
    hide Trim, DedupeSorted, MetadataStrings, ReceiverID, Leq, Ascending;
    DedupedIs(given);
    assert Strings(r.config, "include") == given;
    var paths := DedupeSorted(given);
    if i :| 0 <= i < |given| && !Blank(given[i]) { assert Trim(given[i]) in paths; }
    if paths != [] {
      assert paths[0] in paths;
      NamesApart();
      FileLogConfig(s, r, storageID, paths);
      assert ReadsPaths(FileLog(s, r, storageID).value[0].config, r, given, paths);
    }
  }

  ghost predicate ReadsPaths(c: Config, r: Recipe, given: seq<string>, paths: seq<string>) {
    && Ascending(paths) && Trims(paths, given) && Names(c, "include", Strs(paths))
    && Names(c, "start_at", if "start_at" in r.config then r.config["start_at"] else Str("end"))
  }

  lemma FileLogConfig(s: Source, r: Recipe, storageID: string, paths: seq<string>)
    requires paths == DedupeSorted(if Strings(r.config, "include") != [] then Strings(r.config, "include")
                                   else MetadataStrings(s.metadata, ["include", "path", "paths", "log_path", "log_paths"]))
    requires paths != []
    ensures FileLog(s, r, storageID).Ok? && |FileLog(s, r, storageID).value| == 1
    ensures var c := FileLog(s, r, storageID).value[0].config;
            && Names(c, "include", Strs(paths))
            && Names(c, "start_at", if "start_at" in r.config then r.config["start_at"] else Str("end"))
  {
    hide Strings, MetadataStrings, DedupeSorted, ReceiverID, Blank;
    NamesApart();
  }

  /** A Windows source has one receiver for each of its channels, in their order, which starts at the end unless the recipe
      says otherwise. */
  lemma {:induction false} ChannelsRead(s: Source, r: Recipe, storageID: string, channels: seq<string>, many: bool)
    ensures var builds := ChannelBuilds(s, r, storageID, channels, many);
            |builds| == |channels| && forall i :: 0 <= i < |builds| ==>
              Names(builds[i].config, "channel", Str(channels[i]))
              && Names(builds[i].config, "start_at", if "start_at" in r.config then r.config["start_at"] else Str("end"))
  {
    hide ChannelBuild, Names;
    if channels != [] {
      var n := |channels| - 1;
      ChannelsRead(s, r, storageID, channels[..n], many);
      ChannelRead(s, r, storageID, channels[n], many);
    }
  }

  lemma ChannelRead(s: Source, r: Recipe, storageID: string, channel: string, many: bool)
    ensures var c := ChannelBuild(s, r, storageID, channel, many).config;
            && Names(c, "channel", Str(channel))
            && Names(c, "start_at", if "start_at" in r.config then r.config["start_at"] else Str("end"))
  {
    hide ReceiverID, Blank;
    ChannelNames();
  }

  lemma ChannelNames()
    ensures "channel" != "storage" && "channel" != "retry_on_failure" && "channel" != "start_at"
    ensures "start_at" != "storage" && "start_at" != "retry_on_failure" && "start_at" != "channels" && "start_at" != "event_channels"
  {
    assert "channel"[0] == 'c' && "storage"[0] == 's' && "retry_on_failure"[0] == 'r' && |"start_at"| == 8 && |"storage"| == 7;
    assert "start_at"[0] == 's' && "channels"[0] == 'c';
  }

  /** A Windows source whose recipe lists channels reads exactly those, trimmed, each once. */
  lemma WindowsReads(s: Source, r: Recipe, storageID: string, given: seq<string>)
    requires "channels" in r.config && r.config["channels"] == Strs(given) && exists i :: 0 <= i < |given| && !Blank(given[i])
    ensures var result := WindowsEvents(s, r, storageID);
            && result.Ok?
            && exists channels :: && Ascending(channels) && Trims(channels, given) && |result.value| == |channels|
                 && forall i :: 0 <= i < |channels| ==> Names(result.value[i].config, "channel", Str(channels[i]))
  {
    hide Trim, DedupeSorted, MetadataStrings, Leq, Ascending, ChannelBuilds, Names;
    DedupedIs(given);
    assert Strings(r.config, "channels") == given;
    var channels := Channels(s, r);
    var i :| 0 <= i < |given| && !Blank(given[i]);
    assert Trim(given[i]) in channels;
    ChannelsRead(s, r, storageID, channels, |channels| > 1);
  }
}
