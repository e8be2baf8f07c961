/**
 * The records the booking flow passes around: team members (barbers), the junction data
 * that links a member to a service, and catalogue services. Money is in cents.
 */
module Entities {
  import opened Wrappers

  datatype TeamMember = TeamMember(
    id: int,
    squareUpId: string,
    firstName: string,
    lastName: string,
    status: string,
    emailAddress: Option<string>,
    isOwner: bool)

  /** Per-member data for one service: an optional price override and an availability flag. */
  datatype Junction = Junction(priceAmount: Option<int>, isAvailable: bool)

  /** A team member as listed on a service, with its junction data when there is any. */
  datatype MemberLink = MemberLink(member: TeamMember, junction: Option<Junction>)

  /**
   * A service. `teamMembers` is empty where the source has it missing; `barberPrice` is the
   * per-barber override (`barber_price_amount`), `None` for a plain catalogue service.
   */
  datatype Service = Service(
    id: int,
    name: string,
    description: string,
    priceAmount: int,
    priceCurrency: string,
    duration: int,
    serviceVariationId: string,
    squareCatalogId: string,
    variationName: string,
    isAvailable: bool,
    teamMembers: seq<MemberLink>,
    barberPrice: Option<int>)

  /** A barber joined to the services they offer. */
  datatype BarberWithServices = BarberWithServices(barber: TeamMember, services: seq<Service>)
}
