/**
 * The text a channel-list row shows (`setup(channel:)` in
 * Example/ChatBird/ConversationListTableViewCell.swift): its title, the preview of the
 * last message, and which timestamp the date label is computed from.
 */
module ConversationCell {
  import opened Wrappers
  import opened Sdk

  /** The title: the channel's name, or its member list when the name is empty. */
  function Title(c: Channel): (r: string)
    ensures r == c.name || r == c.membersString
    ensures |c.name| > 0 ==> r == c.name
    ensures |r| == 0 <==> |c.name| == 0 && |c.membersString| == 0
  {
    if |c.name| > 0 then c.name else c.membersString
  }

  predicate HasPrefix(s: string, p: string) {
    |p| <= |s| && s[..|p|] == p
  }

  const PhotoPreview: string := "\U{1F4F7} Photo"
  const VideoPreview: string := "\U{1F3A5} Video"
  const AudioPreview: string := "\U{1F508} Audio"
  const FilePreview: string := "\U{1F4C4} File"

  /** The preview of a file message, by the prefix of its MIME type, checked image, video, audio. */
  function FileKindPreview(mimeType: string): (r: string)
    ensures r in {PhotoPreview, VideoPreview, AudioPreview, FilePreview}
    ensures HasPrefix(mimeType, "image") ==> r == PhotoPreview
  {
    if HasPrefix(mimeType, "image") then PhotoPreview
    else if HasPrefix(mimeType, "video") then VideoPreview
    else if HasPrefix(mimeType, "audio") then AudioPreview
    else FilePreview
  }

  /** A MIME type starts with at most one of "image", "video" and "audio": they differ in their first letter. */
  lemma KindPrefixesExclusive(mimeType: string)
    ensures !(HasPrefix(mimeType, "image") && HasPrefix(mimeType, "video"))
    ensures !(HasPrefix(mimeType, "image") && HasPrefix(mimeType, "audio"))
    ensures !(HasPrefix(mimeType, "video") && HasPrefix(mimeType, "audio"))
  {
    if HasPrefix(mimeType, "image") {
      assert mimeType[0] == "image"[0];
    } else if HasPrefix(mimeType, "video") {
      assert mimeType[0] == "video"[0];
    }
  }

  /** Each preview of a file message stands for exactly the prefix that selects it, whatever the order of the checks. */
  lemma FilePreviewByPrefix(mimeType: string)
    ensures FileKindPreview(mimeType) == PhotoPreview <==> HasPrefix(mimeType, "image")
    ensures FileKindPreview(mimeType) == VideoPreview <==> HasPrefix(mimeType, "video")
    ensures FileKindPreview(mimeType) == AudioPreview <==> HasPrefix(mimeType, "audio")
    ensures FileKindPreview(mimeType) == FilePreview <==>
      !HasPrefix(mimeType, "image") && !HasPrefix(mimeType, "video") && !HasPrefix(mimeType, "audio")
  {
    KindPrefixesExclusive(mimeType);
    assert PhotoPreview[0] != VideoPreview[0] && PhotoPreview[0] != AudioPreview[0] && PhotoPreview[0] != FilePreview[0];
    assert VideoPreview[0] != AudioPreview[0] && VideoPreview[0] != FilePreview[0] && AudioPreview[0] != FilePreview[0];
  }

  /**
   * The message label: empty without a last message; an admin or user message's text,
   * empty when it has none; a file message's kind. For any other kind of message the
   * label is not written (`None`) and keeps what it showed before.
   */
  function Preview(c: Channel): (r: Option<string>)
    ensures c.lastMessage.None? ==> r == Some("")
    ensures r.None? <==> c.lastMessage.Some? && c.lastMessage.value.content.OtherContent?
    ensures c.lastMessage.Some? && (c.lastMessage.value.content.AdminContent? || c.lastMessage.value.content.UserContent?) ==>
      r == Some(c.lastMessage.value.content.text.GetOr(""))
    ensures c.lastMessage.Some? && c.lastMessage.value.content.FileContent? ==>
      r.Some? && r.value in {PhotoPreview, VideoPreview, AudioPreview, FilePreview}
  {
    match c.lastMessage
    case None => Some("")
    case Some(m) =>
      match m.content
      case AdminContent(text) => Some(text.GetOr(""))
      case UserContent(_, _, _, text) => Some(text.GetOr(""))
      case FileContent(_, _, _, mimeType) => Some(FileKindPreview(mimeType))
      case OtherContent => None
  }

  /** The time shown, in milliseconds: the last message's, or the channel's creation when there is none. */
  function TimestampSource(c: Channel): (r: int)
    ensures c.lastMessage.Some? ==> r == c.lastMessage.value.createdAt
    ensures c.lastMessage.None? ==> r == c.createdAt
  {
    match c.lastMessage
    case Some(m) => m.createdAt
    case None => c.createdAt
  }
}
