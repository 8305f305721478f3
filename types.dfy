/** The records the dashboard passes around (src/types.ts and the `User`
    interface of src/context/AuthContext.tsx). Numbers are unbounded. */
module Types {
  import opened Wrappers

  datatype Business = Business(name: string)

  /** The signed-in user; `onboardingCompleted` drives the route gate. */
  datatype User = User(
    id: int,
    name: string,
    email: string,
    onboardingCompleted: bool,
    business: Option<Business>)

  /** The body of a successful `/login` or `/register` response. */
  datatype AuthResponse = AuthResponse(token: string, user: User)

  datatype CampaignStatus = Draft | Scheduled | Sent

  /** `message` is optional; `image` is `None` for both `undefined` and `null`. */
  datatype Campaign = Campaign(
    id: string,
    name: string,
    status: CampaignStatus,
    sent: int,
    total: int,
    date: string,
    message: Option<string>,
    image: Option<string>)

  datatype ContactStatus = StatusValid | StatusInvalid

  datatype Contact = Contact(
    id: string,
    name: string,
    phone: string,
    tags: seq<string>,
    status: ContactStatus)

  datatype TemplateStatus = Approved | Pending | Rejected

  datatype Template = Template(
    id: string,
    name: string,
    category: string,
    language: string,
    status: TemplateStatus,
    body: string)
}
