/** The polymorphic ("generic foreign key") references that reactions and
    notifications hold: a content kind plus an object id. */
module ContentTypes {

  datatype ContentKind =
    | UserContent
    | FriendshipContent
    | PostContent
    | CommentContent
    | MessageContent
    | ConversationContent

  datatype ContentRef = ContentRef(kind: ContentKind, objectId: nat)
}
