/** The records the agency dashboard shows: statistics, recent bookings and recent reviews. */
module DashboardUi {

  /**
   * The earnings figure: the dashboard shows either an amount, which the app
   * formats as local currency, or a fixed text.
   */
  datatype Earnings = Formatted(amount: real) | Literal(text: string)

  datatype AgencyStatsUi = AgencyStatsUi(confirmedBookings: int, newQueries: int, totalExperiences: int, totalEarnings: Earnings)

  /** `AgencyStatsUi()` */
  const DefaultStats: AgencyStatsUi := AgencyStatsUi(0, 0, 0, Literal("S/ 0.00"))

  datatype BookingUi = BookingUi(traveler: string, experience: string, date: string, status: string)

  datatype ReviewUi = ReviewUi(author: string, comment: string, rating: int)
}
