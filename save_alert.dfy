/** The alert `photoLibraryChangePerformed` shows after a save to the photo library. */
module SaveAlert {
  import opened ExportModel

  datatype Alert = Alert(title: string, message: string)

  function MediaName(media: Media): string {
    match media
    case Photo(_) => "Photo"
    case Video(_) => "Video"
  }

  /** `success` is `saved && error == nil`; `hasError` stands for `error != nil`. */
  function SaveAlert(media: Media, saved: bool, hasError: bool): Alert {
    var success := saved && !hasError;
    Alert(if success then "Success" else "Error",
          if success then MediaName(media) + " saved" else "Failed to save " + MediaName(media))
  }

  /** The two outcomes, spelled out. */
  lemma SaveAlertCases(media: Media, saved: bool, hasError: bool)
    ensures saved && !hasError ==> SaveAlert(media, saved, hasError) == Alert("Success", MediaName(media) + " saved")
    ensures !(saved && !hasError) ==> SaveAlert(media, saved, hasError) == Alert("Error", "Failed to save " + MediaName(media))
  {
  }

  /**
   * The alert tells the user everything the rule decides: equal alerts come
   * from the same outcome and the same kind of media.
   */
  lemma SaveAlertDistinguishes(m1: Media, saved1: bool, err1: bool, m2: Media, saved2: bool, err2: bool)
    requires SaveAlert(m1, saved1, err1) == SaveAlert(m2, saved2, err2)
    ensures (saved1 && !err1) == (saved2 && !err2)
    ensures m1.Photo? == m2.Photo?
  {
    var a1, a2 := SaveAlert(m1, saved1, err1), SaveAlert(m2, saved2, err2);
    assert a1.title[0] == a2.title[0];
    if saved1 && !err1 {
      assert a1.message[0] == a2.message[0];
    } else {
      assert a1.message[15] == a2.message[15];
    }
  }
}
