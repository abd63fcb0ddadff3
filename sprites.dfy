/**
 * The sprite asset store: sheets of animation frames with their RGBA pixel
 * grids, looked up by name or by index (src/app/sprite.rs).
 *
 * Reading the descriptor and decoding the image file are done by the
 * caller; the model starts from the decoded sheet and pixel rows.
 */
module Sprites {
  import opened Wrappers

  newtype byte = x: int | 0 <= x < 256

  /** One RGBA pixel of a loaded sheet. */
  datatype Rgba = Rgba(r: byte, g: byte, b: byte, a: byte)

  /** A decoded image pixel, its four channels in r, g, b, a order. */
  type RawPixel = (byte, byte, byte, byte)

  datatype WH = WH(w: nat, h: nat)

  datatype Xywh = Xywh(x: nat, y: nat, w: nat, h: nat)

  /** The descriptor fields of one frame that the game reads. */
  datatype SheetFrame = SheetFrame(frame: Xywh, sourceSize: WH, duration: nat)

  /** A parsed sheet descriptor: its frames and the image file it names. */
  datatype SpriteSheet = SpriteSheet(frames: seq<SheetFrame>, image: string)

  datatype LoadedSprite = LoadedSprite(name: string, index: nat, data: SpriteSheet, image: seq<seq<Rgba>>)

  datatype SpriteStoreError = SpriteStoreError

  /** What locating, parsing or decoding a sheet's files can fail with. */
  datatype LoadError = MissingFile | Malformed | Undecodable

  /** A sheet as it comes back from the file and image readers. */
  datatype Decoded = Decoded(sheet: SpriteSheet, pixels: seq<seq<RawPixel>>)

  type Store = seq<LoadedSprite>

  // ---------------------------------------------------------------------
  // Name derivation

  /** The part of an image file name before its last '.', or None when the
      name has no '.' (where the game's unwrap would panic). */
  function ImageStem(image: string): (r: Option<string>)
    ensures r.None? <==> '.' !in image
    ensures r.Some? ==>
      |r.value| < |image| && image[..|r.value|] == r.value &&
      image[|r.value|] == '.' && '.' !in image[|r.value| + 1..]
  {
    if |image| == 0 then None
    else if image[|image| - 1] == '.' then Some(image[..|image| - 1])
    else
      var r := ImageStem(image[..|image| - 1]);
      assert image[..|image| - 1][..|image| - 1] == image[..|image| - 1];
      if r.None? then None
      else
        assert image[|r.value| + 1..] == image[..|image| - 1][|r.value| + 1..] + [image[|image| - 1]];
        r
  }

  /** Joining a stem and an extension without '.' gives back the stem. */
  lemma {:induction false} StemOfJoin(stem: string, ext: string)
    requires '.' !in ext
    ensures ImageStem(stem + "." + ext) == Some(stem)
  {
    var s := stem + "." + ext;
    if ext == [] {
      assert s[|s| - 1] == '.' && s[..|s| - 1] == stem;
    } else {
      var shorter := ext[..|ext| - 1];
      assert s[|s| - 1] == ext[|ext| - 1] != '.';
      assert '.' !in shorter by {
        assert forall k :: 0 <= k < |shorter| ==> shorter[k] == ext[k];
      }
      assert s[..|s| - 1] == stem + "." + shorter;
      StemOfJoin(stem, shorter);
    }
  }

  // ---------------------------------------------------------------------
  // Pixel conversion

  function ToRgba(p: RawPixel): Rgba {
    Rgba(p.0, p.1, p.2, p.3)
  }

  /** rows converts raw: same row count, same row lengths, channels copied. */
  ghost predicate IsConversion(rows: seq<seq<Rgba>>, raw: seq<seq<RawPixel>>) {
    && |rows| == |raw|
    && (forall i :: 0 <= i < |raw| ==> |rows[i]| == |raw[i]|)
    && (forall i, j :: 0 <= i < |raw| && 0 <= j < |raw[i]| ==> rows[i][j] == ToRgba(raw[i][j]))
  }

  /** Converts the decoded image rows into indexable RGBA rows, pixel by pixel. */
  method ConvertRows(raw: seq<seq<RawPixel>>) returns (rows: seq<seq<Rgba>>)
    ensures IsConversion(rows, raw)
  {
    rows := [];
    var i := 0;
    while i < |raw|
      invariant 0 <= i <= |raw|
      invariant |rows| == i
      invariant forall k :: 0 <= k < i ==> |rows[k]| == |raw[k]|
      invariant forall k, j :: 0 <= k < i && 0 <= j < |raw[k]| ==> rows[k][j] == ToRgba(raw[k][j])
    {
      var row: seq<Rgba> := [];
      var j := 0;
      while j < |raw[i]|
        invariant 0 <= j <= |raw[i]|
        invariant |row| == j
        invariant forall m :: 0 <= m < j ==> row[m] == ToRgba(raw[i][m])
      {
        var p := raw[i][j];
        row := row + [Rgba(p.0, p.1, p.2, p.3)];
        j := j + 1;
      }
      rows := rows + [row];
      i := i + 1;
    }
  }

  // ---------------------------------------------------------------------
  // Loading

  /** Builds the store entry for a decoded sheet at the given index. */
  method LoadSprite(d: Decoded, index: nat) returns (s: LoadedSprite)
    requires '.' in d.sheet.image
    ensures ImageStem(d.sheet.image) == Some(s.name)
    ensures s.index == index && s.data == d.sheet
    ensures IsConversion(s.image, d.pixels)
  {
    var rows := ConvertRows(d.pixels);
    var name := ImageStem(d.sheet.image).value;
    s := LoadedSprite(name, index, d.sheet, rows);
  }

  /** The first failing load among inputs, if any. */
  ghost predicate FirstFailure(inputs: seq<Result<Decoded, LoadError>>, k: int) {
    0 <= k < |inputs| && inputs[k].Err? && forall j :: 0 <= j < k ==> inputs[j].Ok?
  }

  /** Every entry of the store sits at the position its index names. */
  predicate Indexed(store: Store) {
    forall k :: 0 <= k < |store| ==> store[k].index == k
  }

  /** Loads the sheets in order, giving the k-th the index k; the first
      failing load aborts the whole store. */
  method NewStore(inputs: seq<Result<Decoded, LoadError>>) returns (r: Result<Store, LoadError>)
    requires forall i :: 0 <= i < |inputs| && inputs[i].Ok? && (forall j :: 0 <= j < i ==> inputs[j].Ok?) ==>
      '.' in inputs[i].value.sheet.image
    ensures r.Ok? <==> forall i :: 0 <= i < |inputs| ==> inputs[i].Ok?
    ensures r.Err? ==> exists k :: FirstFailure(inputs, k) && r.error == inputs[k].error
    ensures r.Ok? ==> |r.value| == |inputs| && Indexed(r.value)
    ensures r.Ok? ==> forall k :: 0 <= k < |inputs| ==>
      && ImageStem(inputs[k].value.sheet.image) == Some(r.value[k].name)
      && r.value[k].data == inputs[k].value.sheet
      && IsConversion(r.value[k].image, inputs[k].value.pixels)
  {
    var store: Store := [];
    var index := 0;
    while index < |inputs|
      invariant 0 <= index <= |inputs|
      invariant |store| == index
      invariant forall j :: 0 <= j < index ==> inputs[j].Ok?
      invariant Indexed(store)
      invariant forall k :: 0 <= k < index ==>
        && ImageStem(inputs[k].value.sheet.image) == Some(store[k].name)
        && store[k].data == inputs[k].value.sheet
        && IsConversion(store[k].image, inputs[k].value.pixels)
    {
      match inputs[index]
      case Err(e) =>
        assert FirstFailure(inputs, index);
        return Err(e);
      case Ok(d) =>
        var s := LoadSprite(d, index);
        store := store + [s];
      index := index + 1;
    }
    r := Ok(store);
  }

  // ---------------------------------------------------------------------
  // Lookups

  /** The sprite at an index, or an error when the index is past the end. */
  function ByIndex(store: Store, index: nat): (r: Result<LoadedSprite, SpriteStoreError>)
    ensures r.Err? <==> index >= |store|
    ensures r.Ok? ==> r.value == store[index]
  {
    if |store| == 0 || |store| - 1 < index then Err(SpriteStoreError) else Ok(store[index])
  }

  /** The first sprite whose name matches, or an error when none does. */
  function ByName(store: Store, name: string): (r: Result<LoadedSprite, SpriteStoreError>)
    ensures r.Err? <==> forall k :: 0 <= k < |store| ==> store[k].name != name
    ensures r.Ok? ==> exists k :: (0 <= k < |store| && store[k] == r.value && store[k].name == name &&
                                    forall j :: 0 <= j < k ==> store[j].name != name)
  {
    if |store| == 0 then Err(SpriteStoreError)
    else if store[0].name == name then Ok(store[0])
    else
      var r := ByName(store[1..], name);
      assert forall k :: 1 <= k < |store| ==> store[k] == store[1..][k - 1];
      if r.Ok? then
        ghost var k :| 0 <= k < |store[1..]| && store[1..][k] == r.value && store[1..][k].name == name &&
          forall j :: 0 <= j < k ==> store[1..][j].name != name;
        assert 0 <= k + 1 < |store| && store[k + 1] == r.value && store[k + 1].name == name;
        r
      else r
  }

  /** The index recorded in the first sprite whose name matches, or an error
      when none does. */
  function IndexByName(store: Store, name: string): (r: Result<nat, SpriteStoreError>)
    ensures r.Err? <==> forall k :: 0 <= k < |store| ==> store[k].name != name
    ensures r.Ok? ==> exists k :: (0 <= k < |store| && store[k].index == r.value && store[k].name == name &&
                                    forall j :: 0 <= j < k ==> store[j].name != name)
  {
    if |store| == 0 then Err(SpriteStoreError)
    else if store[0].name == name then Ok(store[0].index)
    else
      var r := IndexByName(store[1..], name);
      assert forall k :: 1 <= k < |store| ==> store[k] == store[1..][k - 1];
      if r.Ok? then
        ghost var k :| 0 <= k < |store[1..]| && store[1..][k].index == r.value && store[1..][k].name == name &&
          forall j :: 0 <= j < k ==> store[1..][j].name != name;
        assert 0 <= k + 1 < |store| && store[k + 1].index == r.value && store[k + 1].name == name;
        r
      else r
  }

  /** In a store built by NewStore, the index found by name leads, through
      ByIndex, to the very sprite ByName finds. */
  lemma {:induction false} LookupsAgree(store: Store, name: string)
    requires Indexed(store)
    ensures IndexByName(store, name).Ok? <==> ByName(store, name).Ok?
    ensures IndexByName(store, name).Ok? ==>
      var i := IndexByName(store, name).value;
      i < |store| && store[i].name == name && ByIndex(store, i) == ByName(store, name)
  {
    if |store| > 0 && store[0].name != name {
      var r := IndexByName(store, name);
      if r.Ok? {
        var k :| 0 <= k < |store| && store[k].index == r.value && store[k].name == name &&
          forall j :: 0 <= j < k ==> store[j].name != name;
        var b := ByName(store, name);
        var k' :| 0 <= k' < |store| && store[k'] == b.value && store[k'].name == name &&
          forall j :: 0 <= j < k' ==> store[j].name != name;
        assert k == k';
      }
    }
  }

  /** The asset named n exists in the store. */
  predicate HasAsset(store: Store, n: string) {
    IndexByName(store, n).Ok?
  }

  /** The store index of an asset known to exist. */
  function AssetIndex(store: Store, n: string): (i: nat)
    requires Indexed(store) && HasAsset(store, n)
    ensures i < |store| && store[i].name == n
  {
    LookupsAgree(store, n);
    IndexByName(store, n).value
  }

  // ---------------------------------------------------------------------
  // Well-formed sheets

  /** A frame's box lies inside a (possibly ragged) pixel grid. */
  predicate FrameFits(img: seq<seq<Rgba>>, f: Xywh) {
    f.y + f.h <= |img| && forall y :: f.y <= y < f.y + f.h ==> f.x + f.w <= |img[y]|
  }

  /** What the renderer and the tick read of a sheet without failing: at
      least one frame, every frame inside the image, an even number of rows
      (rows are read in pairs) and at most 65536 columns and rows (the
      screen's u16 coordinate range). */
  predicate SheetOk(s: LoadedSprite) {
    && |s.data.frames| > 0
    && forall i :: 0 <= i < |s.data.frames| ==>
      && FrameFits(s.image, s.data.frames[i].frame)
      && s.data.frames[i].frame.h % 2 == 0
      && s.data.frames[i].frame.w <= 65536
      && s.data.frames[i].frame.h <= 65536
  }

  predicate ValidStore(store: Store) {
    Indexed(store) && forall k :: 0 <= k < |store| ==> SheetOk(store[k])
  }

  function FrameCount(store: Store, index: nat): nat
    requires index < |store|
  {
    |store[index].data.frames|
  }
}
