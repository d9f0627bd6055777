/** The input form: its text and image state, the file picker and the submit guard. */
module InputForm {
  import opened Wrappers
  import opened JsString
  import opened Types

  const ImageMimePrefix := "image/"

  /** A chosen file: its name and MIME type. */
  datatype File = File(name: string, mimeType: string)

  /** The image stored once a data URL has been read: the field after the
      first comma (the base64 payload), or `undefined` when there is no comma. */
  function DataUrlPayload(dataUrl: string): (r: Option<string>)
    ensures r.None? <==> ',' !in dataUrl
    ensures r.Some? ==>
              var n := |Before(dataUrl, ',')| + 1 + |r.value|;
              && n <= |dataUrl|
              && dataUrl[|Before(dataUrl, ',')| + 1..n] == r.value && ',' !in r.value
              && (n < |dataUrl| ==> dataUrl[n] == ',')
  {
    SecondField(dataUrl, ',')
  }

  /** The prefix `data:<type>;base64,` is dropped and the payload kept. */
  lemma DataUrlPrefixDropped(header: string, payload: string)
    requires ',' !in header && ',' !in payload
    ensures DataUrlPayload(header + "," + payload) == Some(payload)
  {
    var s := header + "," + payload;
    assert Before(s, ',') == header by {
      assert s == header + ("," + payload);
      BeforeOfConcat(header, "," + payload, ',');
    }
    var r := DataUrlPayload(s);
    assert r.Some?;
    assert s[|header| + 1..] == payload;
    assert Before(payload, ',') == payload by {
      BeforeOfConcat(payload, "", ',');
    }
  }

  lemma {:induction false} BeforeOfConcat(a: string, b: string, sep: char)
    requires sep !in a && (b == [] || b[0] == sep)
    ensures Before(a + b, sep) == a
    decreases |a|
  {
    if a != [] {
      assert (a + b)[1..] == a[1..] + b;
      BeforeOfConcat(a[1..], b, sep);
    } else {
      assert a + b == b;
    }
  }

  class Form {
    var text: string
    /** `image`: the base64 payload, absent for `null` or `undefined`. */
    var image: Option<string>
    /** What the file input shows as chosen; `None` once its value is reset. */
    var chosen: Option<File>

    constructor ()
      ensures text == "" && image == None && chosen == None
    {
      text := "";
      image := None;
      chosen := None;
    }

    /** The text area's `onChange`. */
    method SetText(value: string)
      modifies this`text
      ensures text == value
    {
      text := value;
    }

    /** A change of the file input: the browser shows `file` as chosen, then
        `handleFileChange` runs.  A non-image file clears the image and resets
        the input; no file clears the image; an image file starts a read. */
    method HandleFileChange(file: Option<File>) returns (readStarted: bool)
      modifies this`image, this`chosen
      ensures readStarted <==> file.Some? && StartsWith(file.value.mimeType, ImageMimePrefix)
      ensures file.None? ==> image == None && chosen == None
      ensures file.Some? && !readStarted ==> image == None && chosen == None
      ensures readStarted ==> image == old(image) && chosen == file
    {
      chosen := file;
      if file.Some? {
        if !StartsWith(file.value.mimeType, ImageMimePrefix) {
          image := None;
          chosen := None;
          return false;
        }
        return true;
      } else {
        image := None;
        return false;
      }
    }

    /** The reader's `onloadend` with the data URL it produced. */
    method HandleReadEnd(dataUrl: string)
      modifies this`image
      ensures image == DataUrlPayload(dataUrl)
    {
      image := SecondField(dataUrl, ',');
    }

    /** `handleSubmit`: blank text submits nothing; otherwise the text as typed
        and the image, with an empty or absent image sent as `undefined`. */
    method HandleSubmit() returns (submitted: Option<GeminiInput>)
      ensures submitted.None? <==> Trim(text) == ""
      ensures submitted.None? <==> forall i :: 0 <= i < |text| ==> IsSpace(text[i])
      ensures submitted.Some? ==> submitted.value.text == text
      ensures submitted.Some? ==>
                submitted.value.image == (if Truthy(image) then image else None)
    {
      if Trim(text) == "" {
        return None;
      }
      submitted := Some(GeminiInput(text, if Truthy(image) then image else None));
    }
  }
}
