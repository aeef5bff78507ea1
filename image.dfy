/** custom_components/petkit/image.py: the last-event image entities of the cameras. Each
    entity remembers the file name and timestamp of the newest media file of its event
    type and serves that file's bytes. */
module Image {
  import opened Common
  import Entity
  import Coordinator

  type MediaFile = Coordinator.MediaFile

  /** A PetKitImageDesc: its key, the record type it shows (None when unset) and the type
      lists of its applicability gate. */
  datatype ImageDesc = ImageDesc(key: string, eventKey: Option<string>, gates: Entity.Gates)

  /** IMAGE_MAPPING[Feeder]: three events, each limited to the two camera feeders; litter
      boxes and fountains have no image descriptors. */
  function FeederImages(d4sh: string, d4h: string): seq<ImageDesc> {
    [ ImageDesc("Last visit event", Some("pet"), Entity.Gates(None, None, Some([d4sh, d4h]))),
      ImageDesc("Last eat event", Some("eat"), Entity.Gates(None, None, Some([d4sh, d4h]))),
      ImageDesc("Last feed event", Some("feed"), Entity.Gates(None, None, Some([d4sh, d4h]))) ]
  }

  /** The image descriptors have no accessor, so each applies to a device exactly when its
      lower-cased type is one of the two camera feeders. */
  lemma FeederImagesApply(d4sh: string, d4h: string, deviceType: string, i: int)
    requires 0 <= i < |FeederImages(d4sh, d4h)|
    ensures Entity.IsSupported<()>(deviceType, FeederImages(d4sh, d4h)[i].gates, None) ==
              Ok(Lower(deviceType) in [d4sh, d4h])
    ensures FeederImages(d4sh, d4h)[i].eventKey == Some(["pet", "eat", "feed"][i])
  {
  }

  /** Whether a media file is of the requested record type; an unset key matches nothing. */
  predicate Matches(f: MediaFile, eventKey: Option<string>) {
    eventKey == Some(f.recordType)
  }

  /** The last media file, in list order, of the requested type. */
  function LastMatch(files: seq<MediaFile>, eventKey: Option<string>): Option<MediaFile>
    decreases |files|
  {
    if files == [] then None
    else if Matches(files[|files| - 1], eventKey) then Some(files[|files| - 1])
    else LastMatch(files[..|files| - 1], eventKey)
  }

  /** There is no last match exactly when no file matches. */
  lemma {:induction false} LastMatchNone(files: seq<MediaFile>, eventKey: Option<string>)
    ensures LastMatch(files, eventKey).None? <==> forall i :: 0 <= i < |files| ==> !Matches(files[i], eventKey)
    decreases |files|
  {
    if files != [] {
      var init := files[..|files| - 1];
      LastMatchNone(init, eventKey);
      assert forall i :: 0 <= i < |init| ==> init[i] == files[i];
    }
  }

  /** A matching file with no matching file after it is the last match. */
  lemma {:induction false} LastMatchAt(files: seq<MediaFile>, eventKey: Option<string>, i: int)
    requires 0 <= i < |files| && Matches(files[i], eventKey)
    requires forall j :: i < j < |files| ==> !Matches(files[j], eventKey)
    ensures LastMatch(files, eventKey) == Some(files[i])
    decreases |files|
  {
    if i < |files| - 1 {
      var init := files[..|files| - 1];
      assert forall j :: i < j < |init| ==> init[j] == files[j];
      LastMatchAt(init, eventKey, i);
    }
  }

  /** The last match over a concatenation is the last match of the second part, if it
      has one, else that of the first: scanning a list and then another leaves what one
      scan over both leaves. */
  lemma {:induction false} LastMatchConcat(a: seq<MediaFile>, b: seq<MediaFile>, eventKey: Option<string>)
    ensures LastMatch(a + b, eventKey) ==
              if LastMatch(b, eventKey).Some? then LastMatch(b, eventKey) else LastMatch(a, eventKey)
    decreases |b|
  {
    if b == [] {
      assert a + b == a;
    } else {
      var b' := b[..|b| - 1];
      assert (a + b)[..|a + b| - 1] == a + b';
      assert (a + b)[|a + b| - 1] == b[|b| - 1];
      LastMatchConcat(a, b', eventKey);
    }
  }

  /** What the two fields hold after a scan, given what they held before. */
  function AfterScan(files: seq<MediaFile>, eventKey: Option<string>,
                     filename: Option<string>, timestamp: Option<int>): (Option<string>, Option<int>)
  {
    match LastMatch(files, eventKey)
    case Some(f) => (Some(f.filename), Some(f.timestamp))
    case None => (filename, timestamp)
  }

  class PetkitImage {
    const desc: ImageDesc
    var lastImageFilename: Option<string>
    var lastImageTimestamp: Option<int>

    /** Nothing is recorded before the first scan. */
    constructor(desc: ImageDesc)
      ensures this.desc == desc
      ensures lastImageFilename == None && lastImageTimestamp == None
    {
      this.desc := desc;
      lastImageFilename := None;
      lastImageTimestamp := None;
    }

    /** image_last_updated. */
    function ImageLastUpdated(): Option<int>
      reads this
    {
      lastImageTimestamp
    }

    /** _get_filename_and_timestamp_for_event_key: every matching file overwrites both
        fields, so the last one wins; with no match both keep their values. The timestamp
        is kept as the POSIX seconds fromtimestamp is given. */
    method ScanEventKey(mediaFiles: seq<MediaFile>, eventKey: Option<string>)
      modifies this
      ensures (lastImageFilename, ImageLastUpdated()) ==
                AfterScan(mediaFiles, eventKey, old(lastImageFilename), old(lastImageTimestamp))
    {
      var i := 0;
      while i < |mediaFiles|
        invariant 0 <= i <= |mediaFiles|
        invariant (lastImageFilename, lastImageTimestamp) ==
                    AfterScan(mediaFiles[..i], eventKey, old(lastImageFilename), old(lastImageTimestamp))
      {
        var f := mediaFiles[i];
        assert mediaFiles[..i + 1][..i] == mediaFiles[..i];
        assert mediaFiles[..i + 1][i] == f;
        if Matches(f, eventKey) {
          lastImageTimestamp := Some(f.timestamp);
          lastImageFilename := Some(f.filename);
        }
        i := i + 1;
      }
      assert mediaFiles[..|mediaFiles|] == mediaFiles;
    }

    /** async_image over the files the media handler lists and the contents of the image
        folder: scan for the descriptor's event, then read the recorded file. An empty or
        missing file name gives None, and so does a file that is not on disk. */
    method AsyncImage(mediaFiles: seq<MediaFile>, disk: map<string, seq<bv8>>) returns (r: Option<seq<bv8>>)
      modifies this
      ensures (lastImageFilename, lastImageTimestamp) ==
                AfterScan(mediaFiles, desc.eventKey, old(lastImageFilename), old(lastImageTimestamp))
      ensures r == match lastImageFilename
                   case Some(name) => if name != "" && name in disk then Some(disk[name]) else None
                   case None => None
      ensures old(lastImageFilename) == None && LastMatch(mediaFiles, desc.eventKey) == None ==> r == None
    {
      ScanEventKey(mediaFiles, desc.eventKey);
      match lastImageFilename {
        case Some(name) =>
          if name != "" && name in disk {
            r := Some(disk[name]);
          } else {
            r := None;
          }
        case None =>
          r := None;
      }
    }
  }

  /** A fresh entity that has scanned two listings holds the last match over both. */
  method TwoScans(desc: ImageDesc, a: seq<MediaFile>, b: seq<MediaFile>) returns (image: PetkitImage)
    ensures (image.lastImageFilename, image.lastImageTimestamp) == AfterScan(a + b, desc.eventKey, None, None)
  {
    image := new PetkitImage(desc);
    image.ScanEventKey(a, desc.eventKey);
    image.ScanEventKey(b, desc.eventKey);
    LastMatchConcat(a, b, desc.eventKey);
  }
}
