/** The rows of the persistent store that the handlers read and write. */
module Entities {

  /** A board, owned by one organization, with its denormalized background
      image fields. */
  datatype Board = Board(
    id: string,
    title: string,
    orgId: string,
    imageId: string,
    imageThumbUrl: string,
    imageFullUrl: string,
    imageUserName: string,
    imageLinkHTML: string)

  /** A list on a board; it reaches its organization through the board. */
  datatype ListRow = ListRow(id: string, title: string, boardId: string, order: int)

  datatype Action = CREATE | UPDATE | DELETE
  datatype EntityType = BOARD | LIST | CARD

  /** An audit-log entry: who did what to which entity, with the entity's
      title as it was at that moment. */
  datatype AuditEntry = AuditEntry(
    orgId: string,
    userId: string,
    action: Action,
    entityType: EntityType,
    entityId: string,
    entityTitle: string)
}
