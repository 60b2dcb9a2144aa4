/**
 * A clothes submission end to end: the form's payload, the storage of its
 * photos, and the server's item/photo merge. The form sends only the photos
 * that exist, while the server pairs the i-th file with the i-th item, so a
 * photo lands on the wrong item as soon as an earlier item has none.
 * `AttachFlaggedPhotos` is the corrected pairing, with each item telling the
 * server whether a photo belongs to it.
 */
module ClothesPipeline {
  import opened Common
  import opened DonationSchema
  import opened DonationRoutes
  import opened DonateForm

  /** The media storage that multer streams each uploaded file to. */
  function Upload(files: seq<BrowserFile>, store: BrowserFile -> StoredFile): seq<StoredFile> {
    seq(|files|, k requires 0 <= k < |files| => store(files[k]))
  }

  /** The reference the item of a form item should end up with. */
  function ExpectedPhoto(item: FormItem, store: BrowserFile -> StoredFile): Option<MediaRef> {
    if item.photo.Some? then Some(RefOf(store(item.photo.value))) else None
  }

  /** The items the server stores for a form submitted as the page builds it. */
  function Delivered(items: seq<FormItem>, store: BrowserFile -> StoredFile): seq<Item> {
    AttachPhotos(StripPhotos(items), Upload(Photos(items), store))
  }

  /**
   * As written: item k receives the photo of the k-th photo-bearing item, and
   * the items past the number of photos receive none.
   */
  lemma KthPhotoLandsOnItemK(items: seq<FormItem>, store: BrowserFile -> StoredFile, k: nat)
    requires k < |items|
    ensures |Delivered(items, store)| == |items|
    ensures k < |PhotoIndices(items)| ==>
      Delivered(items, store)[k].photo == ExpectedPhoto(items[PhotoIndices(items)[k]], store)
    ensures k >= |PhotoIndices(items)| ==> Delivered(items, store)[k].photo == None
  {
    PhotosAtIndices(items);
  }

  /**
   * The smallest case: an item without a photo followed by one with a photo.
   * The first item receives the second item's photo and the second receives none.
   */
  lemma PhotosShiftOntoEarlierItems(p: BrowserFile, store: BrowserFile -> StoredFile)
    ensures var items := [BlankItem, BlankItem.(photo := Some(p))];
            && Delivered(items, store)[0].photo == Some(RefOf(store(p)))
            && Delivered(items, store)[1].photo == None
            && ExpectedPhoto(items[0], store) == None
            && ExpectedPhoto(items[1], store) == Some(RefOf(store(p)))
  {
    var items := [BlankItem, BlankItem.(photo := Some(p))];
    assert items[..1] == [BlankItem];
    assert [BlankItem][..0] == [];
    assert Photos([BlankItem]) == [];
    assert Photos(items) == Photos([BlankItem]) + [p];
    assert PhotoIndices([BlankItem]) == [];
    assert PhotoIndices(items) == PhotoIndices([BlankItem]) + [1];
    KthPhotoLandsOnItemK(items, store, 0);
    KthPhotoLandsOnItemK(items, store, 1);
  }

  // ---------------------------------------------------------------------------
  // The corrected pairing

  /** An item as the corrected form sends it: its fields and whether it has a photo. */
  datatype FlaggedItem = FlaggedItem(item: WireItem, hasPhoto: bool)

  function StripFlagged(items: seq<FormItem>): seq<FlaggedItem> {
    seq(|items|, i requires 0 <= i < |items| => FlaggedItem(Strip(items[i]), items[i].photo.Some?))
  }

  /** The corrected merge: each flagged item takes the next file, in order. */
  function AttachFlaggedPhotos(items: seq<FlaggedItem>, files: seq<StoredFile>): (r: seq<Item>)
    ensures |r| == |items|
    ensures forall i :: 0 <= i < |items| ==>
      r[i].category == items[i].item.category && r[i].quantity == items[i].item.quantity
      && r[i].description == items[i].item.description
    ensures forall i :: 0 <= i < |items| && !items[i].hasPhoto ==> r[i].photo == None
    decreases |items|
  {
    if items == [] then []
    else if items[0].hasPhoto && files != [] then
      [WithPhoto(items[0].item, Some(RefOf(files[0])))] + AttachFlaggedPhotos(items[1..], files[1..])
    else
      [WithPhoto(items[0].item, None)] + AttachFlaggedPhotos(items[1..], files)
  }

  /** The corrected pipeline: the form sends the flags, the server pairs by them. */
  function DeliveredFlagged(items: seq<FormItem>, store: BrowserFile -> StoredFile): seq<Item> {
    AttachFlaggedPhotos(StripFlagged(items), Upload(Photos(items), store))
  }

  function PhotoOf(x: FormItem): seq<BrowserFile> {
    if x.photo.Some? then [x.photo.value] else []
  }

  lemma PhotosLast(s: seq<FormItem>)
    requires s != []
    ensures Photos(s) == Photos(s[..|s| - 1]) + PhotoOf(s[|s| - 1])
  {
  }

  lemma {:induction false} PhotosCons(x: FormItem, rest: seq<FormItem>)
    ensures Photos([x] + rest) == PhotoOf(x) + Photos(rest)
    decreases |rest|
  {
    var s := [x] + rest;
    if rest == [] {
      PhotosLast(s);
      assert s[..0] == [];
    } else {
      var n := |rest| - 1;
      var front := Photos([x] + rest[..n]);
      assert Photos(s) == front + PhotoOf(rest[n]) by {
        PhotosLast(s);
        assert s[..n + 1] == [x] + rest[..n];
      }
      assert front == PhotoOf(x) + Photos(rest[..n]) by {
        PhotosCons(x, rest[..n]);
      }
      PhotosLast(rest);
    }
  }

  /** Delivering a list is delivering its first item, then the rest. */
  lemma DeliveredFlaggedCons(items: seq<FormItem>, store: BrowserFile -> StoredFile)
    requires items != []
    ensures DeliveredFlagged(items, store)
            == [WithPhoto(Strip(items[0]), ExpectedPhoto(items[0], store))] + DeliveredFlagged(items[1..], store)
  {
    var rest := items[1..];
    var fl := StripFlagged(items);
    var files := Upload(Photos(items), store);
    assert fl[1..] == StripFlagged(rest);
    assert Photos(items) == PhotoOf(items[0]) + Photos(rest) by {
      assert items == [items[0]] + rest;
      PhotosCons(items[0], rest);
    }
    if items[0].photo.Some? {
      assert files[1..] == Upload(Photos(rest), store);
    } else {
      assert files == Upload(Photos(rest), store);
    }
  }

  /** With the corrected pairing every item keeps exactly its own photo. */
  lemma {:induction false} FlaggedPipelineKeepsPhotos(items: seq<FormItem>, store: BrowserFile -> StoredFile)
    ensures |DeliveredFlagged(items, store)| == |items|
    ensures forall i :: 0 <= i < |items| ==>
      DeliveredFlagged(items, store)[i].photo == ExpectedPhoto(items[i], store)
    decreases |items|
  {
    if items != [] {
      var rest := items[1..];
      DeliveredFlaggedCons(items, store);
      FlaggedPipelineKeepsPhotos(rest, store);
      forall i | 0 < i < |items|
        ensures DeliveredFlagged(items, store)[i].photo == ExpectedPhoto(items[i], store)
      {
        assert DeliveredFlagged(items, store)[i] == DeliveredFlagged(rest, store)[i - 1];
        assert items[i] == rest[i - 1];
      }
    }
  }
}
