/** The records of types/index.ts that the modelled components read. */
module Types {
  import opened Common

  datatype License = License(spdxId: string)

  datatype Owner = Owner(login: string, avatarUrl: string)

  /** A repository summary as the project listing returns it. The timestamps
      `created_at` and `updated_at` are kept as the instants they denote, as
      integers whose order is the order of time; counts are never negative. */
  datatype Project = Project(
    id: int,
    name: string,
    fullName: string,
    description: Option<string>,
    htmlUrl: string,
    language: Option<string>,
    stargazersCount: nat,
    forksCount: nat,
    createdAt: int,
    updatedAt: int,
    topics: Option<seq<string>>,
    image: Option<string>,
    size: nat,
    license: Option<License>,
    owner: Owner)

  /** The fields of the contact form. */
  datatype ContactFormData = ContactFormData(
    firstName: string,
    lastName: string,
    email: string,
    subject: string,
    message: string,
    privacy: bool)
}
