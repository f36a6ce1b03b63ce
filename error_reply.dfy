/** The image handling of the `error` reply (utils/extenders/Message.js:17-38). The
    filesystem check and the basename are parameters. */
module ErrorReply {
  import opened Js

  /** A file attached to a reply: its path and the name it is sent under. */
  datatype Attachment = Attachment(path: string, name: string)

  /** The error embed. Its colour and thumbnail come from configuration files that are
      not part of this model. */
  datatype ErrorEmbed = ErrorEmbed(description: string, image: Option<string>)

  /** The object passed to `reply`; `files` is `None` when the key is absent. */
  datatype ErrorMessage = ErrorMessage(embeds: seq<ErrorEmbed>, allowedMentions: Value, files: Option<seq<Attachment>>)

  /** `image` is `None` when the argument is omitted. */
  predicate HasImage(image: Option<string>) {
    image.Some? && image.value != ""
  }

  /** The single reply of `error(description, image)`. */
  function Error(description: string, image: Option<string>, fileExists: string -> bool, basename: string -> string)
    : (r: ErrorMessage)
    ensures |r.embeds| == 1 && r.embeds[0].description == description
    ensures r.allowedMentions == NoPing
    // a file is attached exactly when the image names an existing path
    ensures r.files.Some? <==> HasImage(image) && fileExists(image.value)
    // without an image: no image and no `files` key
    ensures !HasImage(image) ==> r.embeds[0].image == None && r.files == None
    // an existing path: attached under its basename and shown through the attachment scheme
    ensures HasImage(image) && fileExists(image.value) ==>
              && r.files == Some([Attachment(image.value, basename(image.value))])
              && r.embeds[0].image == Some("attachment://" + basename(image.value))
    // anything else is used verbatim as the image URL
    ensures HasImage(image) && !fileExists(image.value) ==> r.embeds[0].image == image
  {
    if HasImage(image) then
      var path := image.value;
      if fileExists(path) then
        ErrorMessage([ErrorEmbed(description, Some("attachment://" + basename(path)))], NoPing,
                     Some([Attachment(path, basename(path))]))
      else
        ErrorMessage([ErrorEmbed(description, Some(path))], NoPing, None)
    else
      ErrorMessage([ErrorEmbed(description, None)], NoPing, None)
  }

  /** The embed's image, when it refers to an attachment, refers to the file the reply
      carries. */
  lemma AttachmentIsShown(description: string, image: Option<string>, fileExists: string -> bool, basename: string -> string)
    ensures var r := Error(description, image, fileExists, basename);
            r.files.Some? ==> |r.files.value| == 1 && r.embeds[0].image == Some("attachment://" + r.files.value[0].name)
  {
  }
}
