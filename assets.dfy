/** The two pictures bundled with the site, imported by both portfolio views. */
module Assets {
  const WeddingPicture := "@/assets/portfolio-wedding.jpg"
  const PortraitPicture := "@/assets/portfolio-portrait.jpg"
}
