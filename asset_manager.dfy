/**
  AssetManager of src/assetManager.ts: the "update pubspec assets" command lists the
  workspace's assets directory and replaces flutter.assets in pubspec.yaml with one entry
  per listed file or directory.
*/
module AssetManager {
  import opened Wrappers
  import opened Yaml

  /** One entry of the assets directory listing. */
  datatype DirEntry = DirEntry(name: string, isDir: bool)

  /** A message shown to the user. */
  datatype Notice = ShowError(message: string) | ShowInfo(message: string)

  const PubspecNotFound := "pubspec.yaml not found in the workspace root."
  const NoFlutterSection := "Could not find or create flutter section in pubspec.yaml."
  const PubspecUpdated := "pubspec.yaml updated successfully!"

  /** The manifest entry for one listed file or directory. */
  function AssetPath(e: DirEntry): (p: string)
    ensures e.isDir ==> p == "assets/" + e.name + "/"
    ensures !e.isDir ==> p == "assets/" + e.name
  {
    "assets/" + e.name + (if e.isDir then "/" else "")
  }

  /** The entries of a listing, in listing order. */
  function AssetPaths(es: seq<DirEntry>): (r: seq<string>) {
    if es == [] then [] else [AssetPath(es[0])] + AssetPaths(es[1..])
  }

  /** The new asset list: nothing when the assets directory does not exist. */
  function AssetList(listing: Option<seq<DirEntry>>): (r: seq<string>) {
    match listing
    case None => []
    case Some(es) => AssetPaths(es)
  }

  lemma {:induction false} AssetPathsAppend(es: seq<DirEntry>, e: DirEntry)
    ensures AssetPaths(es + [e]) == AssetPaths(es) + [AssetPath(e)]
  {
    if es == [] {
      assert es + [e] == [e];
    } else {
      assert (es + [e])[1..] == es[1..] + [e];
      AssetPathsAppend(es[1..], e);
    }
  }

  /** One entry per listed entry, in order: a directory gets a trailing slash, a file does not. */
  lemma {:induction false} AssetPathsShape(es: seq<DirEntry>)
    ensures |AssetPaths(es)| == |es|
    ensures forall i :: 0 <= i < |es| ==> AssetPaths(es)[i] == AssetPath(es[i])
  {
    if es != [] {
      AssetPathsShape(es[1..]);
    }
  }

  /**
    The manifest after setting flutter.assets: a missing or falsy flutter value is first
    replaced by an empty map; any other value that is not a map is an error.
  */
  function PatchManifest(doc: Document, assets: seq<string>): (r: Result<Document>) {
    var flutter := if "flutter" in doc && !Falsy(doc["flutter"]) then doc["flutter"] else Map(map[]);
    if flutter.Map? then
      Ok(doc["flutter" := Map(flutter.entries["assets" := StrList(assets)])])
    else
      Err(NoFlutterSection)
  }

  /** The update fails exactly when flutter holds a truthy value that is not a map. */
  lemma PatchManifestFails(doc: Document, assets: seq<string>)
    ensures PatchManifest(doc, assets).Err? <==>
      "flutter" in doc && !Falsy(doc["flutter"]) && !doc["flutter"].Map?
    ensures PatchManifest(doc, assets).Err? ==> PatchManifest(doc, assets).message == NoFlutterSection
  {
  }

  /**
    A number under flutter: zero and NaN are falsy and give way to a new map, while any
    other number, an infinity included, is a value that is not a map.
  */
  lemma PatchManifestOnNumber(doc: Document, assets: seq<string>)
    requires "flutter" in doc && (doc["flutter"].Num? || doc["flutter"].NaN? || doc["flutter"].Infinity?)
    ensures PatchManifest(doc, assets).Ok? <==> doc["flutter"] == Num(0.0) || doc["flutter"] == NaN
  {
  }

  /** A missing or falsy flutter section becomes a map holding only the assets. */
  lemma PatchManifestCreatesFlutter(doc: Document, assets: seq<string>)
    requires "flutter" !in doc || Falsy(doc["flutter"])
    ensures PatchManifest(doc, assets) == Ok(doc["flutter" := Map(map["assets" := StrList(assets)])])
  {
  }

  /**
    Only flutter.assets changes: it holds exactly the new list, every other top-level key
    and every other key under an existing flutter map keeps its value, and no key other
    than assets is added under flutter.
  */
  lemma PatchManifestOnlyAssets(doc: Document, assets: seq<string>)
    requires PatchManifest(doc, assets).Ok?
    ensures var d := PatchManifest(doc, assets).value;
      && d.Keys == doc.Keys + {"flutter"}
      && (forall k :: k in doc && k != "flutter" ==> d[k] == doc[k])
      && d["flutter"].Map?
      && "assets" in d["flutter"].entries
      && d["flutter"].entries["assets"] == StrList(assets)
      && d["flutter"].entries.Keys ==
           (if "flutter" in doc && doc["flutter"].Map? then doc["flutter"].entries.Keys else {}) + {"assets"}
      && (forall k :: "flutter" in doc && doc["flutter"].Map? && k in doc["flutter"].entries && k != "assets"
            ==> k in d["flutter"].entries && d["flutter"].entries[k] == doc["flutter"].entries[k])
  {
  }

  /** Updating again with the same list changes nothing. */
  lemma PatchManifestIdempotent(doc: Document, assets: seq<string>)
    requires PatchManifest(doc, assets).Ok?
    ensures PatchManifest(PatchManifest(doc, assets).value, assets) == PatchManifest(doc, assets)
  {
    var d := PatchManifest(doc, assets).value;
    var f := d["flutter"].entries;
    assert !Falsy(d["flutter"]);
    assert f["assets" := StrList(assets)] == f;
    assert d["flutter" := Map(f)] == d;
  }

  /**
    The extension's view of one workspace: the parsed pubspec.yaml at its root, or None
    when that file does not exist.
  */
  class AssetManager {
    var pubspec: Option<Document>

    constructor(pubspec: Option<Document>)
      ensures this.pubspec == pubspec
    {
      this.pubspec := pubspec;
    }

    /** The loop of updatePubspecAssets that collects the entries of the assets directory. */
    static method CollectAssets(listing: Option<seq<DirEntry>>) returns (newAssets: seq<string>)
      ensures newAssets == AssetList(listing)
      ensures listing.None? ==> newAssets == []
      ensures listing.Some? ==> |newAssets| == |listing.value|
      ensures listing.Some? ==>
        forall i :: 0 <= i < |newAssets| ==> newAssets[i] == AssetPath(listing.value[i])
    {
      newAssets := [];
      if listing.Some? {
        var files := listing.value;
        for i := 0 to |files|
          invariant newAssets == AssetPaths(files[..i])
        {
          assert files[..i + 1] == files[..i] + [files[i]];
          AssetPathsAppend(files[..i], files[i]);
          if files[i].isDir {
            newAssets := newAssets + ["assets/" + files[i].name + "/"];
          } else {
            newAssets := newAssets + ["assets/" + files[i].name];
          }
        }
        assert files[..|files|] == files;
        AssetPathsShape(files);
      }
    }

    /**
      updatePubspecAssets, given the listing of the assets directory (None when it does not
      exist). A missing manifest and a flutter value that is not a map are reported and
      leave the manifest as it was; otherwise the patched manifest is written.
    */
    method UpdatePubspecAssets(listing: Option<seq<DirEntry>>) returns (notice: Notice)
      modifies this
      ensures old(pubspec).None? ==> notice == ShowError(PubspecNotFound) && pubspec == old(pubspec)
      ensures old(pubspec).Some? ==>
        match PatchManifest(old(pubspec).value, AssetList(listing))
        case Ok(d) => pubspec == Some(d) && notice == ShowInfo(PubspecUpdated)
        case Err(m) => pubspec == old(pubspec) && notice == ShowError(m)
    {
      if pubspec.None? {
        return ShowError(PubspecNotFound);
      }
      var doc := pubspec.value;
      ghost var original := doc;
      var newAssets := CollectAssets(listing);
      if "flutter" !in doc || Falsy(doc["flutter"]) {
        doc := doc["flutter" := Map(map[])];
      }
      var flutterNode := doc["flutter"];
      if flutterNode.Map? {
        doc := doc["flutter" := Map(flutterNode.entries["assets" := StrList(newAssets)])];
        assert doc == original["flutter" := Map(flutterNode.entries["assets" := StrList(newAssets)])];
      } else {
        return ShowError(NoFlutterSection);
      }
      pubspec := Some(doc);
      notice := ShowInfo(PubspecUpdated);
    }
  }

  /** Running the command twice with the same listing leaves the manifest as one run does. */
  method UpdateTwice(m: AssetManager, listing: Option<seq<DirEntry>>)
    modifies m
    ensures old(m.pubspec).Some? && PatchManifest(old(m.pubspec).value, AssetList(listing)).Ok? ==>
      m.pubspec == Some(PatchManifest(old(m.pubspec).value, AssetList(listing)).value)
  {
    var first := m.UpdatePubspecAssets(listing);
    if old(m.pubspec).Some? && PatchManifest(old(m.pubspec).value, AssetList(listing)).Ok? {
      PatchManifestIdempotent(old(m.pubspec).value, AssetList(listing));
    }
    var second := m.UpdatePubspecAssets(listing);
  }
}
