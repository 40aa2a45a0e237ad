/** The records the client exchanges with the backend, and the shared constants. */
module Domain {
  import opened Wrappers

  /** The default number of rows per page. */
  const DefaultPageSize: nat := 10
  /** The page size used when loading a level of the client/project/task hierarchy. */
  const HierarchyLimit: nat := 50

  datatype EntityStatus = Active | Inactive | InProgress | Pending | Completed

  datatype Client = Client(id: int, name: string, description: string, status: EntityStatus,
                           createdAt: string, updatedAt: string)

  datatype Project = Project(id: int, clientId: int, name: string, status: EntityStatus,
                             createdAt: string, updatedAt: string)

  datatype Task = Task(id: int, parent: int, name: string, status: EntityStatus,
                       createdAt: string, updatedAt: string)

  datatype TimeEntry = TimeEntry(id: int, taskId: int, userId: string, comment: string,
                                 start: string, end: string, createdAt: string, updatedAt: string)

  datatype TimeEntryPayload = TimeEntryPayload(taskId: int, comment: string, start: string, end: string)

  datatype Order = Asc | Desc {
    function Name(): string {
      match this
      case Asc => "asc"
      case Desc => "desc"
    }
  }

  /** Query descriptors for a list request; every field may be left out. */
  datatype PaginationParams = PaginationParams(limit: Option<int>, offset: Option<int>,
                                               sortBy: Option<string>, order: Option<Order>)

  /** JavaScript truthiness of an optional string: present and non-empty. */
  predicate Truthy(s: Option<string>) {
    s.Some? && s.value != ""
  }
}
